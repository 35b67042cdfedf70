/**
 * The integer part of `decode_polyline` (OhsomeQgis/utils/convert.py), a
 * reader for Google's Encoded Polyline Algorithm Format. Each value is a
 * run of characters, each carrying five bits; the value is zig-zag signed
 * and added to a running sum per coordinate. Points come out as
 * [lng, lat] or [lng, lat, z] in the encoded integer units (the scaling by
 * 1e-5 and 1e-2 and the rounding are floating point and not modelled).
 */
module Polyline {
  import opened Wrappers
  import opened Json

  function Pow2(n: nat): (p: nat)
    ensures p >= 1
  {
    if n == 0 then 1 else 2 * Pow2(n - 1)
  }

  lemma Pow2Plus5(n: nat)
    ensures Pow2(n + 5) == 32 * Pow2(n)
  {
    assert Pow2(n + 5) == 2 * Pow2(n + 4) == 4 * Pow2(n + 3) == 8 * Pow2(n + 2) == 16 * Pow2(n + 1);
  }

  /** The chunk value the decoder takes from a character: its code point less 64. */
  function Chunk(c: char): int
  {
    c as int - 64
  }

  /**
   * The inner `while True` loop: reads chunks from `index`, adding
   * `b << shift` to `result`, until a chunk below 0x1F. Reading past the
   * end of the string is Python's IndexError.
   */
  function ReadLoop(s: string, index: nat, result: int, shift: nat): (r: Result<(int, nat), PyError>)
    ensures r.Success? ==> index < r.value.1 <= |s|
    ensures r.Failure? ==> r.error == IndexError
    decreases |s| - index
  {
    if index >= |s| then Failure(IndexError)
    else
      var b := Chunk(s[index]);
      var next := result + b * Pow2(shift);
      if b < 0x1F then Success((next, index + 1))
      else ReadLoop(s, index + 1, next, shift + 5)
  }

  /** One value as the decoder reads it: the loop started with result 1 and shift 0. */
  function ReadValue(s: string, index: nat): Result<(int, nat), PyError>
  {
    ReadLoop(s, index, 1, 0)
  }

  /** The latitude form `(~result >> 1)` for odd results. */
  function LatDelta(result: int): int
  {
    if result % 2 != 0 then (-result - 1) / 2 else result / 2
  }

  /** The longitude (and height) form `~(result >> 1)` for odd results. */
  function LngDelta(result: int): int
  {
    if result % 2 != 0 then -(result / 2) - 1 else result / 2
  }

  /** The two spellings of zig-zag decoding agree on every integer. */
  lemma LatLngDeltaAgree(result: int)
    ensures LatDelta(result) == LngDelta(result)
  {
    if result % 2 != 0 {
      var k := result / 2;
      assert result == 2 * k + 1;
      assert -result - 1 == 2 * (-k - 1);
    }
  }

  datatype Coord = Coord(lat: int, lng: int, z: int)

  /**
   * One pass of the outer loop: reads lat, lng and (in 3D) z values and
   * adds them to the running sums; returns the new sums and index.
   */
  function ReadPoint(s: string, index: nat, prev: Coord, is3d: bool): (r: Result<(Coord, nat), PyError>)
    ensures r.Success? ==> index < r.value.1 <= |s|
    ensures r.Failure? ==> r.error == IndexError
    ensures r.Success? && !is3d ==> r.value.0.z == prev.z
  {
    match ReadValue(s, index)
    case Failure(e) => Failure(e)
    case Success((rLat, i1)) =>
      match ReadValue(s, i1)
      case Failure(e) => Failure(e)
      case Success((rLng, i2)) =>
        if !is3d then Success((Coord(prev.lat + LatDelta(rLat), prev.lng + LngDelta(rLng), prev.z), i2))
        else
          match ReadValue(s, i2)
          case Failure(e) => Failure(e)
          case Success((rZ, i3)) =>
            Success((Coord(prev.lat + LatDelta(rLat), prev.lng + LngDelta(rLng), prev.z + LngDelta(rZ)), i3))
  }

  /** What the decoder returns for a point: longitude first. */
  function Output(p: Coord, is3d: bool): seq<int>
  {
    if is3d then [p.lng, p.lat, p.z] else [p.lng, p.lat]
  }

  /** The points from `index` on, given the running sums so far. */
  function DecodeFrom(s: string, index: nat, prev: Coord, is3d: bool): Result<seq<seq<int>>, PyError>
    requires index <= |s|
    decreases |s| - index
  {
    if index >= |s| then Success([])
    else
      match ReadPoint(s, index, prev, is3d)
      case Failure(e) => Failure(e)
      case Success((p, next)) => Prepend([Output(p, is3d)], DecodeFrom(s, next, p, is3d))
  }

  /** Every point has two coordinates, or three in 3D; the only error is IndexError. */
  lemma {:induction false} DecodeFromShape(s: string, index: nat, prev: Coord, is3d: bool)
    requires index <= |s|
    ensures var r := DecodeFrom(s, index, prev, is3d);
      (r.Success? ==> forall p :: p in r.value ==> |p| == (if is3d then 3 else 2))
      && (r.Failure? ==> r.error == IndexError)
    decreases |s| - index
  {
    if index < |s| && ReadPoint(s, index, prev, is3d).Success? {
      var (p, next) := ReadPoint(s, index, prev, is3d).value;
      DecodeFromShape(s, next, p, is3d);
    }
  }

  function Decode(s: string, is3d: bool): Result<seq<seq<int>>, PyError>
  {
    DecodeFrom(s, 0, Coord(0, 0, 0), is3d)
  }

  function Prepend(points: seq<seq<int>>, r: Result<seq<seq<int>>, PyError>): Result<seq<seq<int>>, PyError>
  {
    match r
    case Success(rest) => Success(points + rest)
    case Failure(e) => Failure(e)
  }

  lemma PrependNothing(r: Result<seq<seq<int>>, PyError>)
    ensures Prepend([], r) == r
  {
    if r.Success? {
      assert [] + r.value == r.value;
    }
  }

  lemma PrependTwice(points: seq<seq<int>>, p: seq<int>, r: Result<seq<seq<int>>, PyError>)
    ensures Prepend(points, Prepend([p], r)) == Prepend(points + [p], r)
  {
    if r.Success? {
      assert points + ([p] + r.value) == points + [p] + r.value;
    }
  }

  /** One inner `while True` loop of `decode_polyline`. */
  method ReadChunks(polyline: string, start: nat) returns (r: Result<(int, nat), PyError>)
    ensures r == ReadValue(polyline, start)
  {
    var index := start;
    var result, shift := 1, 0;
    while true
      invariant ReadLoop(polyline, index, result, shift) == ReadValue(polyline, start)
      decreases |polyline| - index
    {
      if index >= |polyline| {
        return Failure(IndexError);
      }
      var b := Chunk(polyline[index]);
      index := index + 1;
      result := result + b * Pow2(shift);
      shift := shift + 5;
      if b < 0x1F {
        break;
      }
    }
    return Success((result, index));
  }

  /** `decode_polyline` over integers: the points, or IndexError on a truncated value. */
  method DecodePolyline(polyline: string, is3d: bool) returns (r: Result<seq<seq<int>>, PyError>)
    ensures r == Decode(polyline, is3d)
  {
    var points: seq<seq<int>> := [];
    var index: nat, lat, lng, z := 0, 0, 0, 0;
    PrependNothing(Decode(polyline, is3d));
    while index < |polyline|
      invariant index <= |polyline|
      invariant Decode(polyline, is3d) == Prepend(points, DecodeFrom(polyline, index, Coord(lat, lng, z), is3d))
      decreases |polyline| - index
    {
      ghost var prev := Coord(lat, lng, z);
      var v := ReadChunks(polyline, index);
      if v.Failure? {
        return Failure(v.error);
      }
      var (a, i1) := v.value;
      lat := lat + LatDelta(a);
      v := ReadChunks(polyline, i1);
      if v.Failure? {
        return Failure(v.error);
      }
      var (b, i2) := v.value;
      lng := lng + LngDelta(b);
      var next := i2;
      if is3d {
        v := ReadChunks(polyline, i2);
        if v.Failure? {
          return Failure(v.error);
        }
        var (c, i3) := v.value;
        z := z + LngDelta(c);
        next := i3;
      }
      assert ReadPoint(polyline, index, prev, is3d) == Success((Coord(lat, lng, z), next));
      PrependTwice(points, Output(Coord(lat, lng, z), is3d), DecodeFrom(polyline, next, Coord(lat, lng, z), is3d));
      if is3d {
        points := points + [[lng, lat, z]];
      } else {
        points := points + [[lng, lat]];
      }
      index := next;
    }
    assert points + [] == points;
    return Success(points);
  }

  // ---------------------------------------------------------------------
  // Agreement with the standard reading of the format

  /** The characters the format uses: code points 63 to 126. */
  predicate ValidChars(s: string, from: nat)
  {
    forall k :: from <= k < |s| ==> 63 <= s[k] as int <= 126
  }

  /**
   * The format's own reading: chunk v = ord(c) - 63, its low five bits
   * `v & 0x1F` added at `shift`, continuing while `v >= 0x20`.
   */
  function StandardLoop(s: string, index: nat, acc: int, shift: nat): (r: Result<(int, nat), PyError>)
    ensures r.Failure? ==> r.error == IndexError
    decreases |s| - index
  {
    if index >= |s| then Failure(IndexError)
    else
      var v := s[index] as int - 63;
      var next := acc + (v % 32) * Pow2(shift);
      if v < 0x20 then Success((next, index + 1))
      else StandardLoop(s, index + 1, next, shift + 5)
  }

  /**
   * Starting the sum at `result` instead of `acc` and adding `ord - 64`
   * instead of the low five bits of `ord - 63` shifts the value read by
   * `result - acc - 2^shift`, and stops at the same character.
   */
  lemma {:induction false} ReadLoopShifted(s: string, index: nat, result: int, acc: int, shift: nat)
    requires ValidChars(s, index)
    ensures ReadLoop(s, index, result, shift).Success? == StandardLoop(s, index, acc, shift).Success?
    ensures ReadLoop(s, index, result, shift).Success? ==>
      ReadLoop(s, index, result, shift).value
        == (StandardLoop(s, index, acc, shift).value.0 + result - acc - Pow2(shift), StandardLoop(s, index, acc, shift).value.1)
    decreases |s| - index
  {
    if index < |s| {
      var v := s[index] as int - 63;
      var p := Pow2(shift);
      if v >= 0x20 {
        assert v % 32 == v - 32;
        var result', acc' := result + (v - 1) * p, acc + (v - 32) * p;
        assert ReadLoop(s, index, result, shift) == ReadLoop(s, index + 1, result', shift + 5);
        assert StandardLoop(s, index, acc, shift) == StandardLoop(s, index + 1, acc', shift + 5);
        Pow2Plus5(shift);
        ReadLoopShifted(s, index + 1, result', acc', shift + 5);
        ShiftedOffset(result, acc, v, p);
      } else {
        assert v % 32 == v;
        ShiftedLast(result, acc, v, p);
      }
    }
  }

  lemma ShiftedOffset(result: int, acc: int, v: int, p: int)
    ensures (result + (v - 1) * p) - (acc + (v - 32) * p) - 32 * p == result - acc - p
  {
  }

  lemma ShiftedLast(result: int, acc: int, v: int, p: int)
    ensures result + (v - 1) * p == (acc + v * p) + result - acc - p
  {
  }

  /** Over the format's characters the decoder reads every value as the format defines it. */
  lemma ReadValueIsStandard(s: string, index: nat)
    requires ValidChars(s, index)
    ensures ReadValue(s, index) == StandardLoop(s, index, 0, 0)
  {
    ReadLoopShifted(s, index, 1, 0, 0);
    assert Pow2(0) == 1;
  }

  // ---------------------------------------------------------------------
  // Encoding, the partner of decoding

  /** Zig-zag signing: non-negative x to 2x, negative x to -2x - 1. */
  function Zig(x: int): nat
  {
    if x < 0 then -2 * x - 1 else 2 * x
  }

  lemma UnzigZig(x: int)
    ensures LngDelta(Zig(x)) == x && LatDelta(Zig(x)) == x
  {
    LatLngDeltaAgree(Zig(x));
    if x < 0 {
      assert Zig(x) == 2 * (-x - 1) + 1;
      assert Zig(x) / 2 == -x - 1;
    }
  }

  /** Five-bit chunks, low first, each but the last marked with 0x20, offset by 63. */
  function EncodeChunks(u: nat): (e: string)
    ensures |e| >= 1
    decreases u
  {
    if u < 32 then [(u + 63) as char]
    else [((u % 32 + 32) + 63) as char] + EncodeChunks(u / 32)
  }

  /** Encoded chunks use only the format's characters, and only the last one stops a value. */
  lemma {:induction false} EncodeChunksShape(u: nat)
    ensures ValidChars(EncodeChunks(u), 0)
    ensures forall k :: 0 <= k < |EncodeChunks(u)| - 1 ==> Chunk(EncodeChunks(u)[k]) >= 0x1F
    ensures Chunk(EncodeChunks(u)[|EncodeChunks(u)| - 1]) < 0x1F
    decreases u
  {
    if u >= 32 {
      EncodeChunksShape(u / 32);
      var e := EncodeChunks(u);
      assert e[1..] == EncodeChunks(u / 32);
    }
  }

  function EncodeValue(x: int): string
  {
    EncodeChunks(Zig(x))
  }

  /** The first character of a run holds the low five bits, marked with 0x20 unless it is the last. */
  lemma FirstChunk(u: nat)
    ensures Chunk(EncodeChunks(u)[0]) == if u < 32 then u - 1 else u % 32 + 31
  {
  }

  /** A run whose first chunk is followed by more: after it comes the run of the remaining bits. */
  lemma TailOfChunks(s: string, index: nat, u: nat)
    requires u >= 32
    requires index + |EncodeChunks(u)| <= |s| && s[index..index + |EncodeChunks(u)|] == EncodeChunks(u)
    ensures var tail := EncodeChunks(u / 32);
            |EncodeChunks(u)| == 1 + |tail| && s[index] == EncodeChunks(u)[0]
            && s[index + 1..index + 1 + |tail|] == tail
  {
    var e := EncodeChunks(u);
    var tail := EncodeChunks(u / 32);
    assert e[1..] == tail;
    assert s[index] == s[index..index + |e|][0];
    assert s[index + 1..index + 1 + |tail|] == s[index..index + |e|][1..];
  }

  /** A chunk of 0x1F or more adds its bits and continues five bits higher. */
  lemma ReadLoopContinues(s: string, index: nat, result: int, shift: nat)
    requires index < |s| && Chunk(s[index]) >= 0x1F
    ensures ReadLoop(s, index, result, shift)
            == ReadLoop(s, index + 1, result + Chunk(s[index]) * Pow2(shift), shift + 5)
  {
  }

  /** The decoder's loop reads an encoded chunk run back as `result + u * 2^shift - 2^shift`. */
  lemma {:induction false} ReadLoopOfChunks(s: string, index: nat, u: nat, result: int, shift: nat)
    requires index + |EncodeChunks(u)| <= |s| && s[index..index + |EncodeChunks(u)|] == EncodeChunks(u)
    ensures ReadLoop(s, index, result, shift) == Success((result + u * Pow2(shift) - Pow2(shift), index + |EncodeChunks(u)|))
    decreases u
  {
    FirstChunk(u);
    var p := Pow2(shift);
    if u >= 32 {
      TailOfChunks(s, index, u);
      var result' := result + (u % 32 + 31) * p;
      ReadLoopContinues(s, index, result, shift);
      ReadLoopOfChunks(s, index + 1, u / 32, result', shift + 5);
      Pow2Plus5(shift);
      ChunkedValue(result, u, p);
    } else {
      assert s[index] == s[index..index + |EncodeChunks(u)|][0];
    }
  }

  lemma ChunkedValue(result: int, u: nat, p: int)
    ensures (result + (u % 32 + 31) * p) + (u / 32) * (32 * p) - 32 * p == result + u * p - p
  {
    assert u == 32 * (u / 32) + u % 32;
    assert (u / 32) * (32 * p) == (32 * (u / 32)) * p;
    assert (u % 32 + 31) * p + (32 * (u / 32)) * p - 32 * p == (u % 32 + 32 * (u / 32)) * p - p;
  }

  /** A value encoded at `index` is read back exactly, and reading ends right after it. */
  lemma ReadValueOfEncoded(s: string, index: nat, x: int)
    requires index + |EncodeValue(x)| <= |s| && s[index..index + |EncodeValue(x)|] == EncodeValue(x)
    ensures ReadValue(s, index) == Success((Zig(x), index + |EncodeValue(x)|))
  {
    ReadLoopOfChunks(s, index, Zig(x), 1, 0);
  }

  /** The standard reading of the encoded chunks gives back the chunked number. */
  lemma StandardReadOfEncoded(x: int)
    ensures StandardLoop(EncodeValue(x), 0, 0, 0) == Success((Zig(x), |EncodeValue(x)|))
  {
    ReadValueOfEncoded(EncodeValue(x), 0, x);
    EncodeChunksShape(Zig(x));
    ReadValueIsStandard(EncodeValue(x), 0);
  }

  /** One point's values: the deltas of lat, lng and (in 3D) z from the previous point. */
  function EncodePoint(p: Coord, prev: Coord, is3d: bool): string
  {
    EncodeValue(p.lat - prev.lat) + EncodeValue(p.lng - prev.lng) + (if is3d then EncodeValue(p.z - prev.z) else "")
  }

  /** The encoder: each point's deltas from the previous point. */
  function EncodeFrom(points: seq<Coord>, prev: Coord, is3d: bool): string
  {
    if points == [] then ""
    else EncodePoint(points[0], prev, is3d) + EncodeFrom(points[1..], points[0], is3d)
  }

  function Outputs(points: seq<Coord>, is3d: bool): (r: seq<seq<int>>)
    ensures |r| == |points|
    ensures forall k :: 0 <= k < |points| ==> r[k] == Output(points[k], is3d)
  {
    if points == [] then [] else [Output(points[0], is3d)] + Outputs(points[1..], is3d)
  }

  lemma SuffixSplit(s: string, index: nat, a: string, b: string)
    requires index <= |s| && s[index..] == a + b
    ensures index + |a| <= |s| && s[index..index + |a|] == a && s[index + |a|..] == b
  {
    assert s[index..][..|a|] == a;
    assert s[index..][|a|..] == b;
  }

  /** A value encoded at the head of `s[index..]` is read back, leaving the index at the rest. */
  lemma ReadHead(s: string, index: nat, x: int, rest: string)
    requires index <= |s| && s[index..] == EncodeValue(x) + rest
    ensures ReadValue(s, index) == Success((Zig(x), index + |EncodeValue(x)|))
    ensures index + |EncodeValue(x)| <= |s| && s[index + |EncodeValue(x)|..] == rest
  {
    SuffixSplit(s, index, EncodeValue(x), rest);
    ReadValueOfEncoded(s, index, x);
  }

  /** Unfolds `ReadPoint` over three values read successfully. */
  lemma ReadPointOfValues(s: string, index: nat, prev: Coord, is3d: bool, a: int, i1: nat, b: int, i2: nat, c: int, i3: nat)
    requires ReadValue(s, index) == Success((a, i1)) && ReadValue(s, i1) == Success((b, i2))
    requires is3d ==> ReadValue(s, i2) == Success((c, i3))
    ensures ReadPoint(s, index, prev, is3d)
      == Success((Coord(prev.lat + LatDelta(a), prev.lng + LngDelta(b), if is3d then prev.z + LngDelta(c) else prev.z),
                  if is3d then i3 else i2))
  {
  }

  /** Unfolds `DecodeFrom` over one point read successfully. */
  lemma DecodeFromOfPoint(s: string, index: nat, prev: Coord, is3d: bool, p: Coord, next: nat)
    requires index < |s| && ReadPoint(s, index, prev, is3d) == Success((p, next))
    ensures DecodeFrom(s, index, prev, is3d) == Prepend([Output(p, is3d)], DecodeFrom(s, next, p, is3d))
  {
  }

  /** Reading an encoded 2D point gives back its lat and lng and consumes exactly its values. */
  lemma ReadPoint2(s: string, index: nat, p: Coord, prev: Coord, tail: string)
    requires index <= |s| && s[index..] == EncodePoint(p, prev, false) + tail
    ensures var next := index + |EncodePoint(p, prev, false)|;
      next <= |s| && s[next..] == tail
      && ReadPoint(s, index, prev, false) == Success((Coord(p.lat, p.lng, prev.z), next))
  {
    var eLat, eLng := EncodeValue(p.lat - prev.lat), EncodeValue(p.lng - prev.lng);
    assert EncodePoint(p, prev, false) == eLat + eLng + "";
    assert s[index..] == eLat + (eLng + tail);
    ReadHead(s, index, p.lat - prev.lat, eLng + tail);
    ReadHead(s, index + |eLat|, p.lng - prev.lng, tail);
    UnzigZig(p.lat - prev.lat);
    UnzigZig(p.lng - prev.lng);
    ReadPointOfValues(s, index, prev, false, Zig(p.lat - prev.lat), index + |eLat|, Zig(p.lng - prev.lng), index + |eLat| + |eLng|, 0, 0);
  }

  /** Three values encoded one after another are read back one after another. */
  lemma ReadThreeHeads(s: string, index: nat, x: int, y: int, w: int, tail: string)
    requires index <= |s| && s[index..] == EncodeValue(x) + EncodeValue(y) + EncodeValue(w) + tail
    ensures var i1 := index + |EncodeValue(x)|;
      var i2 := i1 + |EncodeValue(y)|;
      var i3 := i2 + |EncodeValue(w)|;
      i3 <= |s| && s[i3..] == tail
      && ReadValue(s, index) == Success((Zig(x), i1))
      && ReadValue(s, i1) == Success((Zig(y), i2))
      && ReadValue(s, i2) == Success((Zig(w), i3))
  {
    var ex, ey, ew := EncodeValue(x), EncodeValue(y), EncodeValue(w);
    assert s[index..] == ex + (ey + (ew + tail));
    ReadHead(s, index, x, ey + (ew + tail));
    ReadHead(s, index + |ex|, y, ew + tail);
    ReadHead(s, index + |ex| + |ey|, w, tail);
  }

  /** Reading an encoded 3D point gives it back and consumes exactly its values. */
  lemma ReadPoint3(s: string, index: nat, p: Coord, prev: Coord, tail: string)
    requires index <= |s| && s[index..] == EncodePoint(p, prev, true) + tail
    ensures var next := index + |EncodePoint(p, prev, true)|;
      next <= |s| && s[next..] == tail
      && ReadPoint(s, index, prev, true) == Success((p, next))
  {
    var x, y, w := p.lat - prev.lat, p.lng - prev.lng, p.z - prev.z;
    ReadThreeHeads(s, index, x, y, w, tail);
    UnzigZig(x);
    UnzigZig(y);
    UnzigZig(w);
    var i1 := index + |EncodeValue(x)|;
    var i2 := i1 + |EncodeValue(y)|;
    ReadPointOfValues(s, index, prev, true, Zig(x), i1, Zig(y), i2, Zig(w), i2 + |EncodeValue(w)|);
  }

  /** In 2D the height never enters the encoding. */
  lemma {:induction false} EncodeFrom2DIgnoresZ(points: seq<Coord>, lat: int, lng: int, z1: int, z2: int)
    ensures EncodeFrom(points, Coord(lat, lng, z1), false) == EncodeFrom(points, Coord(lat, lng, z2), false)
    decreases points
  {
    if points != [] {
      assert EncodePoint(points[0], Coord(lat, lng, z1), false) == EncodePoint(points[0], Coord(lat, lng, z2), false);
    }
  }

  /** Reading an encoded point gives it back (in 2D with the previous height) and consumes exactly its values. */
  lemma ReadEncodedPoint(s: string, index: nat, p: Coord, prev: Coord, is3d: bool, tail: string)
    requires index <= |s| && s[index..] == EncodePoint(p, prev, is3d) + tail
    ensures var next := index + |EncodePoint(p, prev, is3d)|;
      var decoded := if is3d then p else Coord(p.lat, p.lng, prev.z);
      index < next <= |s| && s[next..] == tail
      && ReadPoint(s, index, prev, is3d) == Success((decoded, next))
  {
    if is3d {
      ReadPoint3(s, index, p, prev, tail);
    } else {
      ReadPoint2(s, index, p, prev, tail);
    }
    assert |EncodePoint(p, prev, is3d)| > 0;
  }

  lemma {:induction false} DecodeFromEncoded(s: string, index: nat, points: seq<Coord>, prev: Coord, is3d: bool)
    requires index <= |s| && s[index..] == EncodeFrom(points, prev, is3d)
    ensures DecodeFrom(s, index, prev, is3d) == Success(Outputs(points, is3d))
    decreases points
  {
    if points == [] {
      assert index == |s|;
    } else {
      var p := points[0];
      var tail := EncodeFrom(points[1..], p, is3d);
      var next := index + |EncodePoint(p, prev, is3d)|;
      var decoded := if is3d then p else Coord(p.lat, p.lng, prev.z);
      ReadEncodedPoint(s, index, p, prev, is3d, tail);
      if !is3d {
        EncodeFrom2DIgnoresZ(points[1..], p.lat, p.lng, p.z, prev.z);
      }
      DecodeFromEncoded(s, next, points[1..], decoded, is3d);
      DecodeFromOfPoint(s, index, prev, is3d, decoded, next);
      assert Output(decoded, is3d) == Output(p, is3d);
    }
  }

  /**
   * Round trip: decoding an encoded point list gives back every point, as
   * [lng, lat] or [lng, lat, z]; the running sums undo the deltas.
   */
  lemma DecodeEncode(points: seq<Coord>, is3d: bool)
    ensures Decode(EncodeFrom(points, Coord(0, 0, 0), is3d), is3d) == Success(Outputs(points, is3d))
  {
    var s := EncodeFrom(points, Coord(0, 0, 0), is3d);
    assert s[0..] == s;
    DecodeFromEncoded(s, 0, points, Coord(0, 0, 0), is3d);
  }

  // ---------------------------------------------------------------------
  // Truncated input

  lemma {:induction false} ReadLoopEndsOnStop(s: string, index: nat, result: int, shift: nat)
    requires ReadLoop(s, index, result, shift).Success?
    ensures Chunk(s[ReadLoop(s, index, result, shift).value.1 - 1]) < 0x1F
    decreases |s| - index
  {
    if Chunk(s[index]) >= 0x1F {
      ReadLoopEndsOnStop(s, index + 1, result + Chunk(s[index]) * Pow2(shift), shift + 5);
    }
  }

  lemma ReadPointEndsOnStop(s: string, index: nat, prev: Coord, is3d: bool)
    requires ReadPoint(s, index, prev, is3d).Success?
    ensures Chunk(s[ReadPoint(s, index, prev, is3d).value.1 - 1]) < 0x1F
  {
    var i1 := ReadValue(s, index).value.1;
    var i2 := ReadValue(s, i1).value.1;
    ReadLoopEndsOnStop(s, if is3d then i2 else i1, 1, 0);
  }

  lemma {:induction false} DecodeFromEndsOnStop(s: string, index: nat, prev: Coord, is3d: bool)
    requires index < |s| && DecodeFrom(s, index, prev, is3d).Success?
    ensures Chunk(s[|s| - 1]) < 0x1F
    decreases |s| - index
  {
    var (p, next) := ReadPoint(s, index, prev, is3d).value;
    ReadPointEndsOnStop(s, index, prev, is3d);
    if next < |s| {
      DecodeFromEndsOnStop(s, next, p, is3d);
    }
  }

  /**
   * A string whose last character is a continuation chunk is a value cut
   * short: decoding raises IndexError.
   */
  lemma TruncatedRaises(s: string, is3d: bool)
    requires |s| > 0 && Chunk(s[|s| - 1]) >= 0x1F
    ensures Decode(s, is3d) == Failure(IndexError)
  {
    DecodeFromShape(s, 0, Coord(0, 0, 0), is3d);
    if Decode(s, is3d).Success? {
      DecodeFromEndsOnStop(s, 0, Coord(0, 0, 0), is3d);
    }
  }
}
