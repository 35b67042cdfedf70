/**
 * A decoded JSON document as the plugin holds it after `json.loads`, and
 * the Python operations the plugin applies to it: truthiness, `len`, `in`,
 * `dict.get`, subscripting, item assignment, `pop`, iteration and the
 * equality Python uses for dictionary keys.
 */
module Json {
  import opened Wrappers
  import Strings

  /**
   * JSON values. Numbers are integers (fractions are not modelled).
   * An object is a Python dict: its members in insertion order, each key
   * once.
   */
  datatype Json =
    | Null
    | Bool(b: bool)
    | Num(n: int)
    | Str(s: string)
    | Arr(items: seq<Json>)
    | Obj(fields: seq<(string, Json)>)

  /** The Python exceptions that reading a decoded document can raise. */
  datatype PyError = KeyError | TypeError | AttributeError | IndexError | ValueError

  type Fields = seq<(string, Json)>

  predicate DistinctKeys(fields: Fields)
  {
    forall i, j :: 0 <= i < j < |fields| ==> fields[i].0 != fields[j].0
  }

  /** Python truthiness: `bool(x)`. */
  predicate Truthy(j: Json)
  {
    match j
    case Null => false
    case Bool(b) => b
    case Num(n) => n != 0
    case Str(s) => |s| > 0
    case Arr(items) => |items| > 0
    case Obj(fields) => |fields| > 0
  }

  /** Python `len(x)`: defined for strings, lists and dicts only. */
  function Len(j: Json): (r: Result<nat, PyError>)
    ensures r.Success? <==> (j.Str? || j.Arr? || j.Obj?)
    ensures r.Success? ==> (r.value > 0 <==> Truthy(j))
  {
    match j
    case Str(s) => Success(|s|)
    case Arr(items) => Success(|items|)
    case Obj(fields) => Success(|fields|)
    case _ => Failure(TypeError)
  }

  function Lookup(fields: Fields, key: string): (r: Option<Json>)
    ensures r.Some? <==> exists i :: 0 <= i < |fields| && fields[i].0 == key
    ensures r.Some? ==> exists i :: 0 <= i < |fields| && fields[i] == (key, r.value)
  {
    if |fields| == 0 then None
    else if fields[0].0 == key then Some(fields[0].1)
    else
      var r := Lookup(fields[1..], key);
      assert forall i :: 1 <= i < |fields| ==> fields[i] == fields[1..][i - 1];
      r
  }

  predicate HasKey(fields: Fields, key: string)
  {
    exists i :: 0 <= i < |fields| && fields[i].0 == key
  }

  /** Python `d.get(key)`: a missing key reads as None, which is also JSON null. */
  function Get(j: Json, key: string): (r: Result<Json, PyError>)
    ensures r.Success? <==> j.Obj?
    ensures j.Obj? && !HasKey(j.fields, key) ==> r.value == Null
  {
    match j
    case Obj(fields) =>
      (match Lookup(fields, key) case Some(v) => Success(v) case None => Success(Null))
    case _ => Failure(AttributeError)
  }

  /** Python `x[key]` with a string key: only a dict that holds the key answers. */
  function Index(j: Json, key: string): (r: Result<Json, PyError>)
    ensures r.Success? <==> j.Obj? && HasKey(j.fields, key)
    ensures r.Failure? && j.Obj? ==> r.error == KeyError
    ensures r.Failure? && !j.Obj? ==> r.error == TypeError
  {
    match j
    case Obj(fields) =>
      (match Lookup(fields, key) case Some(v) => Success(v) case None => Failure(KeyError))
    case _ => Failure(TypeError)
  }

  /** Python `x[i]` with a non-negative integer index. */
  function At(j: Json, i: nat): (r: Result<Json, PyError>)
    ensures j.Arr? ==> (r.Success? <==> i < |j.items|)
    ensures j.Arr? && i < |j.items| ==> r == Success(j.items[i])
    ensures r.Failure? && (j.Null? || j.Bool? || j.Num?) ==> r.error == TypeError
  {
    match j
    case Arr(items) => if i < |items| then Success(items[i]) else Failure(IndexError)
    case Str(s) => if i < |s| then Success(Str([s[i]])) else Failure(IndexError)
    case Obj(_) => Failure(KeyError)
    case _ => Failure(TypeError)
  }

  /** Python `key in x` with a string on the left. */
  function In(key: string, j: Json): (r: Result<bool, PyError>)
    ensures r.Failure? <==> (j.Null? || j.Bool? || j.Num?)
    ensures j.Obj? ==> r == Success(HasKey(j.fields, key))
    ensures j.Str? ==> r == Success(Strings.Contains(j.s, key))
    ensures j.Arr? ==> r == Success(Str(key) in j.items)
  {
    match j
    case Obj(fields) => Success(HasKey(fields, key))
    case Str(s) => Success(Strings.Contains(s, key))
    case Arr(items) => Success(Str(key) in items)
    case _ => Failure(TypeError)
  }

  /** The members of a dict after `d[key] = value`: replaced in place, or added last. */
  function SetField(fields: Fields, key: string, value: Json): (r: Fields)
    ensures HasKey(fields, key) ==> |r| == |fields|
    ensures !HasKey(fields, key) ==> r == fields + [(key, value)]
    ensures Lookup(r, key) == Some(value)
    ensures forall k :: k != key ==> Lookup(r, k) == Lookup(fields, k)
  {
    if |fields| == 0 then [(key, value)]
    else if fields[0].0 == key then [(key, value)] + fields[1..]
    else
      var rest := SetField(fields[1..], key, value);
      assert HasKey(fields, key) ==> HasKey(fields[1..], key);
      assert !HasKey(fields, key) ==> !HasKey(fields[1..], key) && fields == [fields[0]] + fields[1..];
      [fields[0]] + rest
  }

  /** Assigning a key twice leaves the dict as the second assignment alone would. */
  lemma {:induction false} SetFieldTwice(fields: Fields, key: string, first: Json, second: Json)
    ensures SetField(SetField(fields, key, first), key, second) == SetField(fields, key, second)
  {
    if |fields| > 0 && fields[0].0 != key {
      SetFieldTwice(fields[1..], key, first, second);
    }
  }

  /** The members of a dict after `d.pop(key)`. */
  function RemoveField(fields: Fields, key: string): (r: Fields)
    ensures !HasKey(r, key)
    ensures forall k :: k != key ==> Lookup(r, k) == Lookup(fields, k)
    ensures |r| <= |fields|
  {
    if |fields| == 0 then []
    else if fields[0].0 == key then RemoveField(fields[1..], key)
    else [fields[0]] + RemoveField(fields[1..], key)
  }

  /** Python `x[key] = value` on a decoded value. */
  function Assign(j: Json, key: string, value: Json): (r: Result<Json, PyError>)
    ensures r.Success? <==> j.Obj?
    ensures r.Success? ==> r.value.Obj? && Index(r.value, key) == Success(value)
  {
    match j
    case Obj(fields) =>
      var f := SetField(fields, key, value);
      assert HasKey(f, key);
      Success(Obj(f))
    case _ => Failure(TypeError)
  }

  /** Python `for x in value`: lists give their items, strings their characters, dicts their keys. */
  function Iterate(j: Json): (r: Result<seq<Json>, PyError>)
    ensures r.Success? <==> (j.Arr? || j.Str? || j.Obj?)
    ensures j.Arr? ==> r == Success(j.items)
  {
    match j
    case Arr(items) => Success(items)
    case Str(s) => Success(seq(|s|, i requires 0 <= i < |s| => Str([s[i]])))
    case Obj(fields) => Success(seq(|fields|, i requires 0 <= i < |fields| => Str(fields[i].0)))
    case _ => Failure(TypeError)
  }

  /** A value Python can use as a dictionary key (lists and dicts cannot). */
  predicate Hashable(j: Json) { !j.Arr? && !j.Obj? }

  /** Python `==` between dictionary keys: `True == 1` and `False == 0`. */
  predicate KeyEq(a: Json, b: Json)
  {
    Normal(a) == Normal(b)
  }

  function Normal(j: Json): Json
  {
    match j
    case Bool(b) => Num(if b then 1 else 0)
    case _ => j
  }

  /** The number of nodes of a value: it shrinks from a container to anything inside it. */
  function Size(j: Json): (r: nat)
    ensures r >= 1
  {
    match j
    case Arr(items) => 1 + SizeItems(items)
    case Obj(fields) => 1 + SizeFields(fields)
    case _ => 1
  }

  function SizeItems(items: seq<Json>): nat
  {
    if |items| == 0 then 0 else Size(items[0]) + SizeItems(items[1..])
  }

  function SizeFields(fields: Fields): nat
  {
    if |fields| == 0 then 0 else SizeMember(fields[0]) + SizeFields(fields[1..])
  }

  function SizeMember(member: (string, Json)): nat
  {
    Size(member.1)
  }

  /** A member of a list is no larger than the list's items together. */
  lemma {:induction false} ItemSmaller(items: seq<Json>, k: nat)
    requires k < |items|
    ensures Size(items[k]) <= SizeItems(items)
  {
    if k > 0 {
      ItemSmaller(items[1..], k - 1);
    }
  }

  /** A value found under a key is no larger than the dict's members together. */
  lemma {:induction false} LookupSmaller(fields: Fields, key: string)
    requires Lookup(fields, key).Some?
    ensures Size(Lookup(fields, key).value) <= SizeFields(fields)
  {
    if fields[0].0 != key {
      LookupSmaller(fields[1..], key);
    }
  }

  /** `d.get(key)` of a dict answers something smaller than the dict, unless it answers None. */
  lemma GetSmaller(j: Json, key: string)
    requires Get(j, key).Success? && Get(j, key).value != Null
    ensures Size(Get(j, key).value) < Size(j)
  {
    LookupSmaller(j.fields, key);
  }

  /** Everything a `for` loop over a value yields is no larger than the value. */
  lemma IterateSmaller(j: Json)
    requires Iterate(j).Success?
    ensures forall e :: e in Iterate(j).value ==> Size(e) <= Size(j)
  {
    if j.Arr? {
      forall e | e in j.items
        ensures Size(e) <= Size(j)
      {
        var k :| 0 <= k < |j.items| && j.items[k] == e;
        ItemSmaller(j.items, k);
      }
    }
  }
}
