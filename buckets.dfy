/**
 * The insertion-ordered dict from geometry type to features that the GeoJSON
 * splitters fill: `key in d`, `d[key] = []` followed by `append`/`extend`,
 * `d.pop(key)`, and the grouping a loop of such steps produces.
 */
module Buckets {
  import opened Wrappers
  import opened Json

  /** A Python dict from a key to a list of features, in insertion order. */
  type Buckets = seq<(Json, seq<Json>)>

  /** Each key at most once, under Python's key equality. */
  predicate Distinct(b: Buckets)
  {
    forall i, j :: 0 <= i < j < |b| ==> !KeyEq(b[i].0, b[j].0)
  }

  /** No list in the dict is empty. */
  predicate NonEmpty(b: Buckets)
  {
    forall i :: 0 <= i < |b| ==> |b[i].1| > 0
  }

  /** The position at which `key in d` finds the key, if it does. */
  function Find(b: Buckets, key: Json): (r: Option<nat>)
    ensures r.Some? ==> r.value < |b| && KeyEq(b[r.value].0, key)
    ensures r.None? <==> forall i :: 0 <= i < |b| ==> !KeyEq(b[i].0, key)
  {
    if |b| == 0 then None
    else if KeyEq(b[0].0, key) then Some(0)
    else
      match Find(b[1..], key)
      case None =>
        assert forall i :: 1 <= i < |b| ==> b[i] == b[1..][i - 1];
        None
      case Some(i) => Some(i + 1)
  }

  /** `d.get(key) or []`: the list stored under a key, empty when the key is absent. */
  function Members(b: Buckets, key: Json): seq<Json>
  {
    match Find(b, key)
    case Some(i) => b[i].1
    case None => []
  }

  /** `if key not in d: d[key] = []` followed by `d[key].extend(items)`. */
  function Extend(b: Buckets, key: Json, items: seq<Json>): (r: Buckets)
    ensures |r| == |b| || |r| == |b| + 1
    ensures forall i :: 0 <= i < |r| ==> r[i].0 == (if i < |b| then b[i].0 else key)
  {
    match Find(b, key)
    case Some(i) => b[i := (b[i].0, b[i].1 + items)]
    case None => b + [(key, items)]
  }

  /** `d.pop(key)` for a key the dict holds; nothing happens otherwise. */
  function Pop(b: Buckets, key: Json): (r: Buckets)
    ensures |r| <= |b|
  {
    match Find(b, key)
    case Some(i) => b[..i] + b[i + 1..]
    case None => b
  }

  /** In a dict without repeated keys, a key is found exactly where it is stored. */
  lemma FindIs(b: Buckets, key: Json, j: nat)
    requires Distinct(b) && j < |b| && KeyEq(b[j].0, key)
    ensures Find(b, key) == Some(j)
  {
  }

  /** Extending keeps the keys distinct, and only the list under `key` grows, by `items` at its end. */
  lemma ExtendMembers(b: Buckets, key: Json, items: seq<Json>)
    requires Distinct(b)
    ensures Distinct(Extend(b, key, items))
    ensures forall k :: Members(Extend(b, key, items), k)
                        == Members(b, k) + (if KeyEq(key, k) then items else [])
  {
    var r := Extend(b, key, items);
    forall k
      ensures Members(r, k) == Members(b, k) + (if KeyEq(key, k) then items else [])
    {
      match Find(b, k)
      case Some(j) =>
        assert r[j].0 == b[j].0;
        FindIs(r, k, j);
      case None =>
        if KeyEq(key, k) {
          FindIs(r, k, |b|);
        } else {
          assert Find(r, k).None?;
        }
    }
  }

  /** Removing position `i` shifts the later entries down by one. */
  lemma RemovedAt(b: Buckets, i: nat)
    requires i < |b|
    ensures var r := b[..i] + b[i + 1..];
            |r| == |b| - 1
            && (forall j :: 0 <= j < i ==> r[j] == b[j])
            && (forall j :: i <= j < |r| ==> r[j] == b[j + 1])
  {
  }

  /** Popping the key found at `i` keeps the keys distinct. */
  lemma PopDistinct(b: Buckets, key: Json, i: nat)
    requires Distinct(b) && Find(b, key) == Some(i)
    ensures Distinct(Pop(b, key))
  {
    RemovedAt(b, i);
  }

  /** A key stored elsewhere keeps its list, now possibly one position down. */
  lemma PopOther(b: Buckets, key: Json, k: Json, i: nat, j: nat)
    requires Distinct(b) && Find(b, key) == Some(i) && Find(b, k) == Some(j) && j != i
    ensures !KeyEq(key, k) && Members(Pop(b, key), k) == Members(b, k)
  {
    var r := Pop(b, key);
    RemovedAt(b, i);
    PopDistinct(b, key, i);
    var j' := if j < i then j else j - 1;
    assert r[j'] == b[j];
    FindIs(r, k, j');
  }

  /** The popped key, and any key equal to it, is gone. */
  lemma PopSame(b: Buckets, key: Json, k: Json, i: nat)
    requires Distinct(b) && Find(b, key) == Some(i) && KeyEq(key, k)
    ensures Members(Pop(b, key), k) == []
  {
    var r := Pop(b, key);
    RemovedAt(b, i);
    forall j | 0 <= j < |r| ensures !KeyEq(r[j].0, k) {
      if j < i {
        assert r[j] == b[j];
      } else {
        assert r[j] == b[j + 1];
      }
    }
  }

  /** One key's list after the pop of `key`. */
  lemma PopMembersOf(b: Buckets, key: Json, k: Json)
    requires Distinct(b)
    ensures Members(Pop(b, key), k) == if KeyEq(key, k) then [] else Members(b, k)
  {
    match Find(b, key)
    case None =>
      if KeyEq(key, k) {
        assert Find(b, k).None?;
      }
    case Some(i) =>
      if KeyEq(key, k) {
        PopSame(b, key, k, i);
      } else {
        match Find(b, k)
        case Some(j) =>
          PopOther(b, key, k, i, j);
        case None =>
          var r := Pop(b, key);
          RemovedAt(b, i);
          assert Find(r, k).None?;
      }
  }

  /** Popping a key removes its list and leaves the others where they were found. */
  lemma PopMembers(b: Buckets, key: Json)
    requires Distinct(b)
    ensures Distinct(Pop(b, key))
    ensures forall k :: Members(Pop(b, key), k) == if KeyEq(key, k) then [] else Members(b, k)
  {
    if Find(b, key).Some? {
      PopDistinct(b, key, Find(b, key).value);
    }
    forall k ensures Members(Pop(b, key), k) == if KeyEq(key, k) then [] else Members(b, k) {
      PopMembersOf(b, key, k);
    }
  }

  /**
   * The features of `items` that `key` classifies under `k`, in input order:
   * what one bucket of a grouping loop holds.
   */
  function Grouped(items: seq<Json>, k: Json, key: Json -> Option<Json>): (r: seq<Json>)
    ensures |r| <= |items|
  {
    if |items| == 0 then []
    else
      var last := items[|items| - 1];
      Grouped(items[..|items| - 1], k, key)
        + (if key(last).Some? && KeyEq(key(last).value, k) then [last] else [])
  }

  /**
   * The loop `for f in items: if classified: d.setdefault(key(f), []).append(f)`,
   * written from the last step backwards.
   */
  function GroupBy(items: seq<Json>, key: Json -> Option<Json>): Buckets
  {
    if |items| == 0 then []
    else
      var b := GroupBy(items[..|items| - 1], key);
      var last := items[|items| - 1];
      match key(last)
      case Some(t) => Extend(b, t, [last])
      case None => b
  }

  /** The dict a grouping loop over `items` ends with. */
  ghost predicate GroupsOf(b: Buckets, items: seq<Json>, key: Json -> Option<Json>)
  {
    Distinct(b) && NonEmpty(b) && forall k :: Members(b, k) == Grouped(items, k, key)
  }

  /**
   * Grouping puts each classified feature under its key and nothing else:
   * each bucket holds exactly the features of its key in input order, with
   * no key twice and no empty bucket.
   */
  lemma {:induction false} GroupByGroups(items: seq<Json>, key: Json -> Option<Json>)
    ensures GroupsOf(GroupBy(items, key), items, key)
  {
    if |items| > 0 {
      var init := items[..|items| - 1];
      var last := items[|items| - 1];
      var b := GroupBy(init, key);
      GroupByGroups(init, key);
      match key(last)
      case None =>
      case Some(t) =>
        ExtendMembers(b, t, [last]);
        var r := Extend(b, t, [last]);
        forall j | 0 <= j < |r|
          ensures |r[j].1| > 0
        {
          if j < |b| && r[j] != b[j] {
            assert r[j].1 == b[j].1 + [last];
          }
        }
    }
  }

  /** Every feature the key classifies is in some bucket, under a key equal to its own. */
  lemma GroupsCover(b: Buckets, items: seq<Json>, key: Json -> Option<Json>, n: nat)
    requires GroupsOf(b, items, key)
    requires n < |items| && key(items[n]).Some?
    ensures Find(b, key(items[n]).value).Some?
    ensures items[n] in Members(b, key(items[n]).value)
  {
    GroupedHas(items, key(items[n]).value, key, n);
  }

  lemma {:induction false} GroupedHas(items: seq<Json>, k: Json, key: Json -> Option<Json>, n: nat)
    requires n < |items| && key(items[n]) == Some(k)
    ensures items[n] in Grouped(items, k, key)
  {
    var init := items[..|items| - 1];
    if n < |items| - 1 {
      GroupedHas(init, k, key, n);
    }
  }

  /** Every bucket of a grouping is keyed by the key of one of the features it holds. */
  lemma GroupsKeys(b: Buckets, items: seq<Json>, key: Json -> Option<Json>, j: nat)
    requires GroupsOf(b, items, key) && j < |b|
    ensures forall f :: f in b[j].1 ==> f in items && key(f).Some? && KeyEq(key(f).value, b[j].0)
  {
    FindIs(b, b[j].0, j);
    GroupedIn(items, b[j].0, key);
  }

  lemma {:induction false} GroupedIn(items: seq<Json>, k: Json, key: Json -> Option<Json>)
    ensures forall f :: f in Grouped(items, k, key) ==> f in items && key(f).Some? && KeyEq(key(f).value, k)
  {
    if |items| > 0 {
      GroupedIn(items[..|items| - 1], k, key);
    }
  }

  /** One more classified step of the grouping loop. */
  lemma GroupByStep(items: seq<Json>, i: nat, key: Json -> Option<Json>)
    requires i < |items|
    ensures GroupBy(items[..i + 1], key)
            == match key(items[i])
               case Some(t) => Extend(GroupBy(items[..i], key), t, [items[i]])
               case None => GroupBy(items[..i], key)
  {
    assert items[..i + 1][..i] == items[..i];
  }
}
