/**
 * The Python `str` operations the plugin relies on, over Dafny strings
 * (sequences of Unicode code points): decimal rendering, substring
 * membership (`in`), `split`, `rsplit`, `join`, `strip`, `replace`,
 * ASCII `lower`, the `re.sub(" +", " ", s)` space collapse and
 * code-point ordering of strings.
 */
module Strings {
  import opened Wrappers

  // ---------------------------------------------------------------------
  // Decimal digits: Python's str(int)

  predicate IsDigit(c: char) { '0' <= c <= '9' }

  predicate AllDigits(s: string) { forall i :: 0 <= i < |s| ==> IsDigit(s[i]) }

  function DigitChar(d: nat): (c: char)
    requires d < 10
    ensures IsDigit(c) && c as int - '0' as int == d
  {
    ('0' as int + d) as char
  }

  /** Python `str(n)` for a non-negative integer. */
  function NatToString(n: nat): (s: string)
    ensures |s| > 0 && AllDigits(s)
    ensures n < 10 <==> |s| == 1
    decreases n
  {
    if n < 10 then [DigitChar(n)] else NatToString(n / 10) + [DigitChar(n % 10)]
  }

  /** Python `str(i)` for any integer. */
  function IntToString(i: int): (s: string)
    ensures |s| > 0
    ensures i >= 0 <==> AllDigits(s)
  {
    if i < 0 then
      var s := "-" + NatToString(-i);
      assert !IsDigit(s[0]);
      s
    else NatToString(i)
  }

  /** The value of a string of decimal digits. */
  function DigitsValue(s: string): nat
    requires AllDigits(s)
  {
    if s == [] then 0 else DigitsValue(s[..|s| - 1]) * 10 + (s[|s| - 1] as int - '0' as int)
  }

  /** Reads a non-empty run of decimal digits back as a number. */
  function ParseNat(s: string): (r: Option<nat>)
    ensures r.Some? <==> |s| > 0 && AllDigits(s)
  {
    if |s| > 0 && AllDigits(s) then Some(DigitsValue(s)) else None
  }

  lemma {:induction false} DigitsValueOfNat(n: nat)
    ensures DigitsValue(NatToString(n)) == n
    decreases n
  {
    if n >= 10 {
      var s := NatToString(n);
      assert s[..|s| - 1] == NatToString(n / 10);
      DigitsValueOfNat(n / 10);
    }
  }

  /** Rendering a number and reading it back gives the number. */
  lemma ParseNatToString(n: nat)
    ensures ParseNat(NatToString(n)) == Some(n)
  {
    DigitsValueOfNat(n);
  }

  /** Different numbers render differently. */
  lemma NatToStringInjective(m: nat, n: nat)
    requires NatToString(m) == NatToString(n)
    ensures m == n
  {
    DigitsValueOfNat(m);
    DigitsValueOfNat(n);
  }

  // ---------------------------------------------------------------------
  // Substrings: Python's `sub in s`, str.find, str.rfind

  predicate OccursAt(s: string, sub: string, i: int)
  {
    0 <= i && i + |sub| <= |s| && s[i..i + |sub|] == sub
  }

  /** Python `sub in s`. */
  predicate Contains(s: string, sub: string)
  {
    exists i :: 0 <= i <= |s| - |sub| && OccursAt(s, sub, i)
  }

  /** The first occurrence of `sub` at or after `from`. */
  function FindFrom(s: string, sub: string, from: nat): (r: Option<nat>)
    requires |sub| > 0
    ensures r.Some? ==> from <= r.value && OccursAt(s, sub, r.value)
    ensures r.Some? ==> forall j :: from <= j < r.value ==> !OccursAt(s, sub, j)
    ensures r.None? ==> forall j :: from <= j ==> !OccursAt(s, sub, j)
    decreases |s| - from
  {
    if from + |sub| > |s| then None
    else if s[from..from + |sub|] == sub then Some(from)
    else FindFrom(s, sub, from + 1)
  }

  /** The last occurrence of `sub` that ends at or before `upto`. */
  function FindLast(s: string, sub: string, upto: nat): (r: Option<nat>)
    requires |sub| > 0 && upto <= |s|
    ensures r.Some? ==> OccursAt(s, sub, r.value) && r.value + |sub| <= upto
    ensures r.Some? ==> forall j :: r.value < j && j + |sub| <= upto ==> !OccursAt(s, sub, j)
    ensures r.None? ==> forall j :: 0 <= j && j + |sub| <= upto ==> !OccursAt(s, sub, j)
    decreases upto
  {
    if upto < |sub| then None
    else if s[upto - |sub|..upto] == sub then Some(upto - |sub|)
    else FindLast(s, sub, upto - 1)
  }

  /** A string contains its own ending. */
  lemma EndsWithContains(s: string, sub: string)
    requires |sub| <= |s| && s[|s| - |sub|..] == sub
    ensures Contains(s, sub)
  {
    assert OccursAt(s, sub, |s| - |sub|);
  }

  lemma FindFromContains(s: string, sub: string)
    requires |sub| > 0
    ensures FindFrom(s, sub, 0).Some? <==> Contains(s, sub)
  {
    var r := FindFrom(s, sub, 0);
    if r.Some? {
      assert OccursAt(s, sub, r.value);
    }
  }

  // ---------------------------------------------------------------------
  // split, rsplit, join, replace

  /** Python `s.split(sep)` for a non-empty separator: scans left to right. */
  function Split(s: string, sep: string): (parts: seq<string>)
    requires |sep| > 0
    ensures |parts| > 0
    decreases |s|
  {
    match FindFrom(s, sep, 0)
    case None => [s]
    case Some(j) => [s[..j]] + Split(s[j + |sep|..], sep)
  }

  /** Python `s.rsplit(sep)` for a non-empty separator: scans right to left. */
  function RSplit(s: string, sep: string): (parts: seq<string>)
    requires |sep| > 0
    ensures |parts| > 0
    decreases |s|
  {
    match FindLast(s, sep, |s|)
    case None => [s]
    case Some(j) => RSplit(s[..j], sep) + [s[j + |sep|..]]
  }

  /** Python `sep.join(parts)`. */
  function Join(sep: string, parts: seq<string>): string
  {
    if |parts| == 0 then ""
    else if |parts| == 1 then parts[0]
    else parts[0] + sep + Join(sep, parts[1..])
  }

  /** Python `s.replace(part, "")`. */
  function Remove(s: string, part: string): string
  {
    if |part| == 0 then s else Join("", Split(s, part))
  }

  /** A join begins with its first part. */
  lemma JoinStartsWithFirst(sep: string, parts: seq<string>)
    requires |parts| > 0
    ensures |Join(sep, parts)| >= |parts[0]| && Join(sep, parts)[..|parts[0]|] == parts[0]
  {
  }

  /** Joining one more part adds the separator and the part at the end. */
  lemma {:induction false} JoinAppend(sep: string, parts: seq<string>, last: string)
    requires |parts| > 0
    ensures Join(sep, parts + [last]) == Join(sep, parts) + sep + last
    decreases |parts|
  {
    if |parts| > 1 {
      assert (parts + [last])[1..] == parts[1..] + [last];
      JoinAppend(sep, parts[1..], last);
    }
  }

  /** `sep` occurs in `s` at position `p` and nowhere else. */
  predicate OnlyAt(s: string, sep: string, p: nat)
  {
    OccursAt(s, sep, p) && forall j :: 0 <= j <= |s| && j != p ==> !OccursAt(s, sep, j)
  }

  /** The part after the only occurrence holds no occurrence. */
  lemma AfterOnlyAt(s: string, sep: string, p: nat)
    requires |sep| > 0 && OnlyAt(s, sep, p)
    ensures var rest := s[p + |sep|..]; forall i :: 0 <= i ==> !OccursAt(rest, sep, i)
  {
    var rest := s[p + |sep|..];
    forall i | 0 <= i ensures !OccursAt(rest, sep, i) {
      if i + |sep| <= |rest| {
        assert !OccursAt(s, sep, p + |sep| + i);
        assert s[p + |sep| + i..p + |sep| + i + |sep|] == rest[i..i + |sep|];
      }
    }
  }

  /** The part before the only occurrence holds no occurrence. */
  lemma BeforeOnlyAt(s: string, sep: string, p: nat)
    requires |sep| > 0 && OnlyAt(s, sep, p)
    ensures forall j :: 0 <= j && j + |sep| <= p ==> !OccursAt(s[..p], sep, j)
  {
    var head := s[..p];
    forall j | 0 <= j && j + |sep| <= p ensures !OccursAt(head, sep, j) {
      assert !OccursAt(s, sep, j);
      assert s[j..j + |sep|] == head[j..j + |sep|];
    }
  }

  /** A separator occurring once splits the string into the parts before and after it. */
  lemma SplitOnlyAt(s: string, sep: string, p: nat)
    requires |sep| > 0 && OnlyAt(s, sep, p)
    ensures Split(s, sep) == [s[..p], s[p + |sep|..]]
  {
    AfterOnlyAt(s, sep, p);
    var first := FindFrom(s, sep, 0);
    assert first == Some(p);
    var rest := s[p + |sep|..];
    assert FindFrom(rest, sep, 0).None?;
    assert Split(rest, sep) == [rest];
  }

  /** The same for `rsplit`. */
  lemma RSplitOnlyAt(s: string, sep: string, p: nat)
    requires |sep| > 0 && OnlyAt(s, sep, p)
    ensures RSplit(s, sep) == [s[..p], s[p + |sep|..]]
  {
    BeforeOnlyAt(s, sep, p);
    var last := FindLast(s, sep, |s|);
    assert last == Some(p);
    var head := s[..p];
    assert FindLast(head, sep, p).None?;
    assert RSplit(head, sep) == [head];
  }

  /** A separator one of whose characters appears in `s` only where that separator would put it occurs only there. */
  lemma UniqueCharOnlyAt(s: string, sep: string, p: nat, k: nat)
    requires k < |sep| && OccursAt(s, sep, p)
    requires forall i :: 0 <= i < |s| && s[i] == sep[k] ==> i == p + k
    ensures OnlyAt(s, sep, p)
  {
    forall j | 0 <= j <= |s| && OccursAt(s, sep, j) ensures j + k < |s| && s[j + k] == sep[k] {
      assert s[j..j + |sep|][k] == sep[k];
    }
  }

  lemma {:induction false} FindFromChar(s: string, c: char)
    requires c !in s
    ensures FindFrom(s, [c], 0).None?
  {
    forall j | 0 <= j ensures !OccursAt(s, [c], j) {
      if j + 1 <= |s| {
        assert s[j..j + 1] == [s[j]];
      }
    }
  }

  /** Splitting at a one-character separator undoes joining with it. */
  lemma {:induction false} SplitJoin(c: char, parts: seq<string>)
    requires |parts| > 0
    requires forall k :: 0 <= k < |parts| ==> c !in parts[k]
    ensures Split(Join([c], parts), [c]) == parts
    decreases |parts|
  {
    if |parts| == 1 {
      FindFromChar(parts[0], c);
    } else {
      var rest := Join([c], parts[1..]);
      var s := parts[0] + [c] + rest;
      assert Join([c], parts) == s;
      var p := |parts[0]|;
      assert OccursAt(s, [c], p);
      forall j | 0 <= j < p ensures !OccursAt(s, [c], j) {
        assert s[j] == parts[0][j];
      }
      assert FindFrom(s, [c], 0) == Some(p);
      assert s[..p] == parts[0];
      assert s[p + 1..] == rest;
      SplitJoin(c, parts[1..]);
    }
  }

  /** The parts of a split never contain the separator. */
  lemma {:induction false} SplitPartsFree(s: string, sep: string)
    requires |sep| > 0
    ensures forall k :: 0 <= k < |Split(s, sep)| ==> !Contains(Split(s, sep)[k], sep)
    decreases |s|
  {
    match FindFrom(s, sep, 0)
    case None =>
      if Contains(s, sep) {
        FindFromContains(s, sep);
      }
    case Some(j) =>
      var head := s[..j];
      forall i | 0 <= i <= |head| - |sep| ensures !OccursAt(head, sep, i) {
        assert i + |sep| <= j;
        assert s[i..i + |sep|] == head[i..i + |sep|];
        assert !OccursAt(s, sep, i);
      }
      SplitPartsFree(s[j + |sep|..], sep);
  }

  // ---------------------------------------------------------------------
  // strip

  /** What a strip removes: the given characters, or whitespace when no argument is passed. */
  datatype Strippable = Given(chars: set<char>) | Whitespace

  /** The characters Python's `str.isspace` accepts. */
  predicate IsSpace(c: char)
  {
    var n := c as int;
    (9 <= n <= 13) || (28 <= n <= 32) || n == 0x85 || n == 0xA0 || n == 0x1680
    || (0x2000 <= n <= 0x200A) || n == 0x2028 || n == 0x2029 || n == 0x202F
    || n == 0x205F || n == 0x3000
  }

  predicate Drops(w: Strippable, c: char)
  {
    match w
    case Given(chars) => c in chars
    case Whitespace => IsSpace(c)
  }

  /** Python `s.lstrip(...)`. */
  function StripLeft(s: string, w: Strippable): (r: string)
    ensures |r| <= |s| && r == s[|s| - |r|..]
    ensures forall k :: 0 <= k < |s| - |r| ==> Drops(w, s[k])
    ensures |r| > 0 ==> !Drops(w, r[0])
  {
    if |s| > 0 && Drops(w, s[0]) then StripLeft(s[1..], w) else s
  }

  /** Python `s.rstrip(...)`. */
  function StripRight(s: string, w: Strippable): (r: string)
    ensures |r| <= |s| && r == s[..|r|]
    ensures forall k :: |r| <= k < |s| ==> Drops(w, s[k])
    ensures |r| > 0 ==> !Drops(w, r[|r| - 1])
  {
    if |s| > 0 && Drops(w, s[|s| - 1]) then StripRight(s[..|s| - 1], w) else s
  }

  /** Python `s.strip(...)`. */
  function StripWith(s: string, w: Strippable): string
  {
    StripRight(StripLeft(s, w), w)
  }

  /** The piece kept is the longest: its first and last characters are ones the strip keeps. */
  lemma StripEnds(s: string, w: Strippable)
    ensures var r := StripWith(s, w); |r| > 0 ==> !Drops(w, r[0]) && !Drops(w, r[|r| - 1])
  {
    var l := StripLeft(s, w);
    var r := StripRight(l, w);
    assert r == StripWith(s, w);
    if |r| > 0 {
      assert |l| > 0 && r == l[..|r|];
      assert r[0] == l[0];
    }
  }

  /** `lstrip` removes a leading run of removable characters up to the first kept one. */
  lemma {:induction false} StripLeftExact(pre: string, rest: string, w: Strippable)
    requires forall k :: 0 <= k < |pre| ==> Drops(w, pre[k])
    requires |rest| > 0 ==> !Drops(w, rest[0])
    ensures StripLeft(pre + rest, w) == rest
    decreases |pre|
  {
    if |pre| > 0 {
      assert (pre + rest)[1..] == pre[1..] + rest;
      StripLeftExact(pre[1..], rest, w);
    } else {
      assert pre + rest == rest;
    }
  }

  /** `rstrip` removes a trailing run of removable characters back to the last kept one. */
  lemma {:induction false} StripRightExact(rest: string, post: string, w: Strippable)
    requires forall k :: 0 <= k < |post| ==> Drops(w, post[k])
    requires |rest| > 0 ==> !Drops(w, rest[|rest| - 1])
    ensures StripRight(rest + post, w) == rest
    decreases |post|
  {
    if |post| > 0 {
      assert (rest + post)[..|rest + post| - 1] == rest + post[..|post| - 1];
      StripRightExact(rest, post[..|post| - 1], w);
    } else {
      assert rest + post == rest;
    }
  }

  /**
   * Stripping a string made of removable characters, a piece whose ends
   * are kept, and removable characters gives exactly that piece; an empty
   * piece gives the empty string.
   */
  lemma StripExact(pre: string, mid: string, post: string, w: Strippable)
    requires forall k :: 0 <= k < |pre| ==> Drops(w, pre[k])
    requires forall k :: 0 <= k < |post| ==> Drops(w, post[k])
    requires |mid| > 0 ==> !Drops(w, mid[0]) && !Drops(w, mid[|mid| - 1])
    ensures StripWith(pre + mid + post, w) == mid
  {
    if |mid| > 0 {
      assert pre + mid + post == pre + (mid + post);
      StripLeftExact(pre, mid + post, w);
      StripRightExact(mid, post, w);
    } else {
      assert pre + mid + post == (pre + post) + [];
      forall k | 0 <= k < |pre + post| ensures Drops(w, (pre + post)[k]) {
        if k >= |pre| {
          assert (pre + post)[k] == post[k - |pre|];
        }
      }
      StripLeftExact(pre + post, [], w);
    }
  }

  /** Python `s.strip(chars)`. */
  function Strip(s: string, chars: set<char>): string
  {
    StripWith(s, Given(chars))
  }

  /** Python `s.strip()`. */
  function StripSpace(s: string): string
  {
    StripWith(s, Whitespace)
  }

  // ---------------------------------------------------------------------
  // lower, space collapse

  /** The ASCII lower-case form of one character. */
  function LowerChar(c: char): char
  {
    if 'A' <= c <= 'Z' then (c as int + 32) as char else c
  }

  /** Python `s.lower()` restricted to the ASCII letters. */
  function Lower(s: string): (r: string)
    ensures |r| == |s|
  {
    if s == [] then [] else [LowerChar(s[0])] + Lower(s[1..])
  }

  /** Lowering works character by character, and lowering twice changes nothing more. */
  lemma {:induction false} LowerAt(s: string)
    ensures forall k :: 0 <= k < |s| ==> Lower(s)[k] == LowerChar(s[k])
    ensures Lower(Lower(s)) == Lower(s)
  {
    if s != [] {
      LowerAt(s[1..]);
      assert Lower(s)[1..] == Lower(s[1..]);
    }
  }

  /** A string without upper-case ASCII letters is already lower case. */
  lemma {:induction false} LowerNoUpper(s: string)
    requires forall k :: 0 <= k < |s| ==> !('A' <= s[k] <= 'Z')
    ensures Lower(s) == s
  {
    if s != [] {
      LowerNoUpper(s[1..]);
    }
  }

  /** Lowering a concatenation lowers each part. */
  lemma {:induction false} LowerConcat(a: string, b: string)
    ensures Lower(a + b) == Lower(a) + Lower(b)
  {
    if a != [] {
      assert (a + b)[1..] == a[1..] + b;
      LowerConcat(a[1..], b);
    } else {
      assert a + b == b;
    }
  }

  /** `re.sub(" +", " ", s)`: every run of spaces becomes one space. */
  function CollapseSpaces(s: string): (r: string)
    ensures |r| <= |s|
    ensures forall k :: 0 <= k < |r| - 1 ==> !(r[k] == ' ' && r[k + 1] == ' ')
    ensures |s| > 0 ==> |r| > 0 && r[0] == s[0]
  {
    if |s| < 2 then s
    else if s[0] == ' ' && s[1] == ' ' then CollapseSpaces(s[1..])
    else [s[0]] + CollapseSpaces(s[1..])
  }

  /** A string without two spaces in a row is left as it is. */
  lemma {:induction false} CollapseSpacesKeeps(s: string)
    requires forall k :: 0 <= k < |s| - 1 ==> !(s[k] == ' ' && s[k + 1] == ' ')
    ensures CollapseSpaces(s) == s
  {
    if |s| >= 2 {
      CollapseSpacesKeeps(s[1..]);
    }
  }

  // ---------------------------------------------------------------------
  // Code-point order of strings: Python's `<=` on str

  predicate StrLe(a: string, b: string)
  {
    if |a| == 0 then true
    else if |b| == 0 then false
    else if a[0] != b[0] then a[0] < b[0]
    else StrLe(a[1..], b[1..])
  }

  lemma {:induction false} StrLeTotal(a: string, b: string)
    ensures StrLe(a, b) || StrLe(b, a)
  {
    if |a| > 0 && |b| > 0 && a[0] == b[0] {
      StrLeTotal(a[1..], b[1..]);
    }
  }

  lemma {:induction false} StrLeTransitive(a: string, b: string, c: string)
    requires StrLe(a, b) && StrLe(b, c)
    ensures StrLe(a, c)
  {
    if |a| > 0 && |b| > 0 && |c| > 0 && a[0] == b[0] && b[0] == c[0] {
      StrLeTransitive(a[1..], b[1..], c[1..]);
    }
  }

  lemma {:induction false} StrLeAntisymmetric(a: string, b: string)
    requires StrLe(a, b) && StrLe(b, a)
    ensures a == b
  {
    if |a| > 0 && |b| > 0 {
      StrLeAntisymmetric(a[1..], b[1..]);
      assert a == [a[0]] + a[1..] && b == [b[0]] + b[1..];
    }
  }
}
