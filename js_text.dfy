/** The few ECMAScript built-ins the client relies on, stated over Dafny strings:
    `startsWith`, `trim`, `split(' ')`, `toUpperCase`/`toLowerCase` (ASCII letters only),
    number-to-decimal conversion, `Array.prototype.splice(i, 1)`, and the string
    `length`, which counts UTF-16 code units. */
module JsText {

  import opened Wrappers

  /** `a || b` on strings: the first operand unless it is empty. */
  function Or(a: string, b: string): string {
    if a != "" then a else b
  }

  /** A character that UTF-16 stores as a surrogate pair (one above U+FFFF). */
  predicate Astral(c: char) {
    c as int > 0xFFFF
  }

  /** `s.length`: the number of UTF-16 code units, two for an astral character. */
  function Utf16Length(s: string): (n: nat)
    ensures |s| <= n <= 2 * |s|
    ensures n == 0 <==> s == []
  {
    if s == [] then 0
    else Utf16Length(s[..|s| - 1]) + (if Astral(s[|s| - 1]) then 2 else 1)
  }

  /** The length of two strings in a row is the sum of their lengths. */
  lemma {:induction false} Utf16LengthAppend(a: string, b: string)
    ensures Utf16Length(a + b) == Utf16Length(a) + Utf16Length(b)
  {
    if b != [] {
      assert (a + b)[..|a + b| - 1] == a + b[..|b| - 1];
      assert (a + b)[|a + b| - 1] == b[|b| - 1];
      Utf16LengthAppend(a, b[..|b| - 1]);
    } else {
      assert a + b == a;
    }
  }

  /** Without astral characters the length is the number of characters; with
      only astral characters it is twice that. */
  lemma {:induction false} Utf16LengthCases(s: string)
    ensures (forall k :: 0 <= k < |s| ==> !Astral(s[k])) ==> Utf16Length(s) == |s|
    ensures (forall k :: 0 <= k < |s| ==> Astral(s[k])) ==> Utf16Length(s) == 2 * |s|
  {
    if s != [] {
      var init := s[..|s| - 1];
      assert forall k :: 0 <= k < |init| ==> init[k] == s[k];
      Utf16LengthCases(init);
    }
  }

  /** `s.startsWith(prefix)` */
  predicate StartsWith(s: string, prefix: string) {
    |prefix| <= |s| && s[..|prefix|] == prefix
  }

  /** `s.endsWith(suffix)` */
  predicate EndsWith(s: string, suffix: string) {
    |suffix| <= |s| && s[|s| - |suffix|..] == suffix
  }

  lemma StartsWithConcat(p: string, q: string, prefix: string)
    requires StartsWith(p, prefix)
    ensures StartsWith(p + q, prefix)
  {
    assert (p + q)[..|prefix|] == p[..|prefix|];
  }

  lemma StartsWithTransitive(s: string, p: string, prefix: string)
    requires StartsWith(s, p) && StartsWith(p, prefix)
    ensures StartsWith(s, prefix)
  {
    assert s[..|prefix|] == s[..|p|][..|prefix|];
  }

  /** Two prefixes that begin with different characters cannot both begin `s`. */
  lemma StartsWithExcludes(s: string, p: string, q: string)
    requires StartsWith(s, p) && p != [] && q != [] && p[0] != q[0]
    ensures !StartsWith(s, q)
  {
    assert s[0] == p[0];
  }

  /** ECMAScript WhiteSpace and LineTerminator code points: what `trim` removes and
      what the regular-expression class `\s` matches. */
  predicate IsWhiteSpace(c: char) {
    || c == '\t' || c == '\n' || c == '\U{000B}' || c == '\U{000C}' || c == '\r'
    || c == ' ' || c == '\U{00A0}' || c == '\U{1680}'
    || ('\U{2000}' <= c <= '\U{200A}')
    || c == '\U{2028}' || c == '\U{2029}' || c == '\U{202F}' || c == '\U{205F}'
    || c == '\U{3000}' || c == '\U{FEFF}'
  }

  function TrimStart(s: string): string {
    if s != [] && IsWhiteSpace(s[0]) then TrimStart(s[1..]) else s
  }

  function TrimEnd(s: string): string {
    if s != [] && IsWhiteSpace(s[|s| - 1]) then TrimEnd(s[..|s| - 1]) else s
  }

  /** `trimStart` removes a white-space prefix and stops at the first other character. */
  lemma {:induction false} TrimStartSpec(s: string)
    ensures var r := TrimStart(s);
      && |r| <= |s| && r == s[|s| - |r|..]
      && (r != [] ==> !IsWhiteSpace(r[0]))
      && forall i :: 0 <= i < |s| - |r| ==> IsWhiteSpace(s[i])
  {
    if s != [] && IsWhiteSpace(s[0]) {
      var t := s[1..];
      TrimStartSpec(t);
      var r := TrimStart(t);
      assert TrimStart(s) == r;
      assert t[|t| - |r|..] == s[|s| - |r|..];
      forall i | 0 <= i < |s| - |r|
        ensures IsWhiteSpace(s[i])
      {
        if i > 0 {
          assert s[i] == t[i - 1];
        }
      }
    }
  }

  /** `trimEnd` removes a white-space suffix and stops at the last other character. */
  lemma {:induction false} TrimEndSpec(s: string)
    ensures var r := TrimEnd(s);
      && |r| <= |s| && r == s[..|r|]
      && (r != [] ==> !IsWhiteSpace(r[|r| - 1]))
      && forall i :: |r| <= i < |s| ==> IsWhiteSpace(s[i])
  {
    if s != [] && IsWhiteSpace(s[|s| - 1]) {
      var t := s[..|s| - 1];
      TrimEndSpec(t);
      var r := TrimEnd(t);
      assert TrimEnd(s) == r;
      assert t[..|r|] == s[..|r|];
      forall i | |r| <= i < |s|
        ensures IsWhiteSpace(s[i])
      {
        if i < |t| {
          assert s[i] == t[i];
        }
      }
    }
  }

  /** `s.trim()` */
  function Trim(s: string): string {
    TrimEnd(TrimStart(s))
  }

  /** `!s?.trim()`: the string is empty once surrounding white space is removed. */
  predicate IsBlank(s: string) {
    Trim(s) == ""
  }

  lemma BlankIffAllWhiteSpace(s: string)
    ensures IsBlank(s) <==> forall i :: 0 <= i < |s| ==> IsWhiteSpace(s[i])
  {
    var t := TrimStart(s);
    TrimStartSpec(s);
    TrimEndSpec(t);
    if IsBlank(s) && t != [] {
      assert false;
    }
  }

  /** `s.split(sep)` for a one-character separator: the pieces between separators,
      including empty pieces between adjacent separators; "" splits into [""]. */
  function Split(s: string, sep: char): (parts: seq<string>)
    ensures |parts| >= 1
  {
    if s == [] then [""]
    else
      var rest := Split(s[1..], sep);
      if s[0] == sep then [""] + rest else [[s[0]] + rest[0]] + rest[1..]
  }

  /** `parts.join(sep)` */
  function Join(parts: seq<string>, sep: string): string {
    if parts == [] then ""
    else if |parts| == 1 then parts[0]
    else parts[0] + sep + Join(parts[1..], sep)
  }

  /** Splitting and joining on the same separator gives back the original text. */
  lemma {:induction false} SplitJoin(s: string, sep: char)
    ensures Join(Split(s, sep), [sep]) == s
  {
    if s != [] {
      SplitJoin(s[1..], sep);
      if s[0] == sep {
        SplitJoinAtSeparator(s, sep);
      } else {
        SplitJoinAtOther(s, sep);
      }
    }
  }

  /** The step of `SplitJoin` when the text starts with the separator. */
  lemma SplitJoinAtSeparator(s: string, sep: char)
    requires s != [] && s[0] == sep
    requires Join(Split(s[1..], sep), [sep]) == s[1..]
    ensures Join(Split(s, sep), [sep]) == s
  {
    var rest := Split(s[1..], sep);
    assert Split(s, sep) == [""] + rest;
    JoinEmptyFirst(rest, [sep]);
    assert [sep] + s[1..] == s;
  }

  /** An empty first piece leaves just the separator in front of the join. */
  lemma JoinEmptyFirst(parts: seq<string>, sep: string)
    requires parts != []
    ensures Join([""] + parts, sep) == sep + Join(parts, sep)
  {
    var longer := [""] + parts;
    assert longer[0] == "" && longer[1..] == parts;
    assert "" + sep == sep;
  }

  /** The step of `SplitJoin` when the text starts with another character. */
  lemma SplitJoinAtOther(s: string, sep: char)
    requires s != [] && s[0] != sep
    requires Join(Split(s[1..], sep), [sep]) == s[1..]
    ensures Join(Split(s, sep), [sep]) == s
  {
    var rest := Split(s[1..], sep);
    assert Split(s, sep) == [[s[0]] + rest[0]] + rest[1..];
    JoinExtendFirst(s[0], rest, [sep]);
    assert [s[0]] + s[1..] == s;
  }

  /** Putting a character in front of the first piece puts it in front of the join. */
  lemma JoinExtendFirst(c: char, parts: seq<string>, sep: string)
    requires parts != []
    ensures Join([[c] + parts[0]] + parts[1..], sep) == [c] + Join(parts, sep)
  {
    var longer := [[c] + parts[0]] + parts[1..];
    assert longer[0] == [c] + parts[0] && longer[1..] == parts[1..];
    if |parts| > 1 {
      var more := Join(parts[1..], sep);
      assert Join(longer, sep) == [c] + parts[0] + sep + more;
      assert Join(parts, sep) == parts[0] + sep + more;
    }
  }

  /** No piece of a split contains the separator. */
  lemma {:induction false} SplitPiecesAvoidSeparator(s: string, sep: char)
    ensures forall k :: 0 <= k < |Split(s, sep)| ==> sep !in Split(s, sep)[k]
  {
    if s != [] {
      var rest := Split(s[1..], sep);
      SplitPiecesAvoidSeparator(s[1..], sep);
      if s[0] == sep {
        var parts := [""] + rest;
        assert Split(s, sep) == parts;
        forall k | 0 <= k < |parts| ensures sep !in parts[k] {
          if k > 0 { assert parts[k] == rest[k - 1]; }
        }
      } else {
        var parts := [[s[0]] + rest[0]] + rest[1..];
        assert Split(s, sep) == parts;
        forall k | 0 <= k < |parts| ensures sep !in parts[k] {
          if k > 0 { assert parts[k] == rest[k]; }
        }
      }
    }
  }

  /** `c.toUpperCase()` restricted to the ASCII letters. */
  function UpperChar(c: char): char {
    if 'a' <= c <= 'z' then (c as int - 32) as char else c
  }

  /** `c.toLowerCase()` restricted to the ASCII letters. */
  function LowerChar(c: char): char {
    if 'A' <= c <= 'Z' then (c as int + 32) as char else c
  }

  function Upper(s: string): (r: string)
    ensures |r| == |s| && forall i :: 0 <= i < |s| ==> r[i] == UpperChar(s[i])
  {
    if s == [] then "" else [UpperChar(s[0])] + Upper(s[1..])
  }

  function Lower(s: string): (r: string)
    ensures |r| == |s| && forall i :: 0 <= i < |s| ==> r[i] == LowerChar(s[i])
  {
    if s == [] then "" else [LowerChar(s[0])] + Lower(s[1..])
  }

  /** Lower-casing lower-cased text changes nothing. */
  lemma LowerIdempotent(s: string)
    ensures Lower(Lower(s)) == Lower(s)
  {
  }

  /** `s.substring(0, n)` for n >= 0 */
  function Take(s: string, n: nat): (r: string)
    ensures |r| == if n <= |s| then n else |s|
    ensures r == s[..|r|]
  {
    if n <= |s| then s[..n] else s
  }

  /** `s.charAt(0)`: the first character, or "" for the empty string. */
  function CharAt0(s: string): (r: string)
    ensures r == if s == [] then "" else [s[0]]
  {
    if s == [] then "" else s[..1]
  }

  function DigitChar(d: nat): (c: char)
    requires d < 10
    ensures '0' <= c <= '9'
  {
    ['0', '1', '2', '3', '4', '5', '6', '7', '8', '9'][d]
  }

  /** The decimal text JavaScript gives a non-negative integer in a template literal. */
  function NatToString(n: nat): (r: string)
    ensures |r| >= 1 && forall i :: 0 <= i < |r| ==> '0' <= r[i] <= '9'
    ensures n > 0 ==> r[0] != '0'
  {
    if n < 10 then [DigitChar(n)] else NatToString(n / 10) + [DigitChar(n % 10)]
  }

  /** The start index `Array.prototype.splice(index, ...)` uses: a negative index
      counts from the end, and both ends are clamped. */
  function SpliceStart(len: nat, index: int): (k: nat)
    ensures k <= len
  {
    if index < 0 then (if len + index < 0 then 0 else len + index)
    else if index > len then len
    else index
  }

  /** `a.splice(index, 1)`: removes at most one element, at the splice start. */
  function RemoveAt<T>(s: seq<T>, index: int): (r: seq<T>)
  {
    var k := SpliceStart(|s|, index);
    if k < |s| then s[..k] + s[k + 1..] else s
  }

  lemma RemoveAtInRange<T>(s: seq<T>, index: int)
    requires 0 <= index < |s|
    ensures RemoveAt(s, index) == s[..index] + s[index + 1..]
    ensures |RemoveAt(s, index)| == |s| - 1
    ensures forall j :: 0 <= j < |s| - 1 ==> RemoveAt(s, index)[j] == if j < index then s[j] else s[j + 1]
  {
  }

  lemma RemoveAtPastEnd<T>(s: seq<T>, index: int)
    requires index >= |s|
    ensures RemoveAt(s, index) == s
  {
  }

  /** The first position holding `x` is the one `indexOf` reports. */
  lemma IndexOfIsFirst<T>(s: seq<T>, x: T, i: nat)
    requires i < |s| && s[i] == x && x !in s[..i]
    ensures IndexOf(s, x) == Some(i)
  {
    assert s[i] in s;
    var j := IndexOf(s, x).value;
    assert forall k :: 0 <= k < i ==> s[..i][k] == s[k];
    assert forall k :: 0 <= k < j ==> s[..j][k] == s[k];
  }

  /** `a.some(p)` */
  function Any<T>(s: seq<T>, p: T -> bool): (b: bool)
    ensures b <==> exists k :: 0 <= k < |s| && p(s[k])
  {
    if s == [] then false
    else if p(s[0]) then true
    else
      var b := Any(s[1..], p);
      assert forall k :: 1 <= k < |s| ==> s[k] == s[1..][k - 1];
      b
  }

  /** `a.filter(p)` */
  function Filter<T(!new)>(s: seq<T>, p: T -> bool): (r: seq<T>)
    ensures |r| <= |s|
    ensures forall x :: x in r <==> x in s && p(x)
  {
    if s == [] then []
    else
      assert forall x :: x in s <==> x == s[0] || x in s[1..];
      (if p(s[0]) then [s[0]] else []) + Filter(s[1..], p)
  }

  /** Filtering keeps the input order: it distributes over concatenation. */
  lemma {:induction false} FilterAppend<T(!new)>(a: seq<T>, b: seq<T>, p: T -> bool)
    ensures Filter(a + b, p) == Filter(a, p) + Filter(b, p)
  {
    if a == [] {
      assert a + b == b;
    } else {
      var head := if p(a[0]) then [a[0]] else [];
      assert (a + b)[0] == a[0] && (a + b)[1..] == a[1..] + b;
      FilterAppend(a[1..], b, p);
      assert Filter(a + b, p) == head + (Filter(a[1..], p) + Filter(b, p));
      assert Filter(a, p) == head + Filter(a[1..], p);
    }
  }

  /** A single element is kept exactly when it passes. */
  lemma FilterSingle<T(!new)>(x: T, p: T -> bool)
    ensures Filter([x], p) == if p(x) then [x] else []
  {
    assert [x][1..] == [];
  }

  /** Filtering a sequence extended by one element. */
  lemma FilterSnoc<T(!new)>(s: seq<T>, x: T, p: T -> bool)
    ensures Filter(s + [x], p) == Filter(s, p) + (if p(x) then [x] else [])
  {
    FilterAppend(s, [x], p);
    FilterSingle(x, p);
  }

  /** Filtering keeps every passing element as often as it occurs and drops
      every other one. */
  lemma {:induction false} FilterMultiplicity<T(!new)>(s: seq<T>, p: T -> bool)
    ensures forall x :: multiset(Filter(s, p))[x] == if p(x) then multiset(s)[x] else 0
  {
    if s != [] {
      var init := s[..|s| - 1];
      var last := s[|s| - 1];
      assert s == init + [last];
      FilterSnoc(init, last, p);
      FilterMultiplicity(init, p);
      assert multiset(s) == multiset(init) + multiset{last};
      assert multiset(Filter(s, p)) == multiset(Filter(init, p)) + multiset(if p(last) then [last] else []);
    }
  }

  /** Each kept element comes from an input position, and what is kept before it
      is exactly what the input before that position keeps. */
  lemma {:induction false} FilterPosition<T(!new)>(s: seq<T>, p: T -> bool, k: nat)
    requires k < |Filter(s, p)|
    ensures exists i :: 0 <= i < |s| && s[i] == Filter(s, p)[k] && p(s[i])
                        && Filter(s[..i], p) == Filter(s, p)[..k]
  {
    var init := s[..|s| - 1];
    FilterSnoc(init, s[|s| - 1], p);
    assert s == init + [s[|s| - 1]];
    if k < |Filter(init, p)| {
      FilterPosition(init, p, k);
      var i :| 0 <= i < |init| && init[i] == Filter(init, p)[k] && p(init[i])
               && Filter(init[..i], p) == Filter(init, p)[..k];
      assert init[..i] == s[..i];
      PositionBeforeLast(s, p, k, i);
    } else {
      PositionAtLast(s, p, k);
    }
  }

  /** The step of `FilterPosition` for an element kept before the last one. */
  lemma PositionBeforeLast<T(!new)>(s: seq<T>, p: T -> bool, k: nat, i: nat)
    requires s != [] && i < |s| - 1
    requires k < |Filter(s[..|s| - 1], p)|
    requires s[i] == Filter(s[..|s| - 1], p)[k] && p(s[i])
    requires Filter(s[..i], p) == Filter(s[..|s| - 1], p)[..k]
    ensures k < |Filter(s, p)| && s[i] == Filter(s, p)[k] && Filter(s[..i], p) == Filter(s, p)[..k]
  {
    var init := s[..|s| - 1];
    FilterSnoc(init, s[|s| - 1], p);
    assert s == init + [s[|s| - 1]];
    var f := Filter(init, p);
    assert Filter(s, p)[..k] == f[..k];
  }

  /** The step of `FilterPosition` for the last element. */
  lemma PositionAtLast<T(!new)>(s: seq<T>, p: T -> bool, k: nat)
    requires s != []
    requires k == |Filter(s[..|s| - 1], p)| < |Filter(s, p)|
    ensures p(s[|s| - 1]) && s[|s| - 1] == Filter(s, p)[k] && Filter(s[..|s| - 1], p) == Filter(s, p)[..k]
  {
    var init := s[..|s| - 1];
    FilterSnoc(init, s[|s| - 1], p);
    assert s == init + [s[|s| - 1]];
  }

  /** Each kept element comes from an input position before which every
      passing element is kept at an earlier position. */
  lemma FilterEarlier<T(!new)>(s: seq<T>, p: T -> bool, k: nat)
    requires k < |Filter(s, p)|
    ensures exists i :: 0 <= i < |s| && s[i] == Filter(s, p)[k]
                        && forall j :: 0 <= j < i && p(s[j]) ==> exists j' :: 0 <= j' < k && Filter(s, p)[j'] == s[j]
  {
    var f := Filter(s, p);
    FilterPosition(s, p, k);
    var i :| 0 <= i < |s| && s[i] == f[k] && p(s[i]) && Filter(s[..i], p) == f[..k];
    forall j | 0 <= j < i && p(s[j])
      ensures exists j' :: 0 <= j' < k && f[j'] == s[j]
    {
      assert s[j] == s[..i][j];
      assert s[j] in f[..k];
    }
  }

  /** Filtering keeps the whole sequence exactly when every element passes. */
  lemma {:induction false} FilterKeepsAll<T(!new)>(s: seq<T>, p: T -> bool)
    ensures Filter(s, p) == s <==> forall k :: 0 <= k < |s| ==> p(s[k])
  {
    if s != [] {
      FilterKeepsAll(s[1..], p);
      assert forall k :: 1 <= k < |s| ==> s[k] == s[1..][k - 1];
      if !p(s[0]) {
        assert |Filter(s, p)| < |s| by {
          assert |Filter(s[1..], p)| <= |s[1..]|;
        }
      } else {
        assert Filter(s, p)[1..] == Filter(s[1..], p);
        assert s == [s[0]] + s[1..];
      }
    }
  }

  /** Filtering twice with the same test is filtering once. */
  lemma FilterIdempotent<T(!new)>(s: seq<T>, p: T -> bool)
    ensures Filter(Filter(s, p), p) == Filter(s, p)
  {
    var f := Filter(s, p);
    assert forall k :: 0 <= k < |f| ==> f[k] in f;
    FilterKeepsAll(f, p);
  }

  /** `a.indexOf(x)`, with `None` for -1. */
  function IndexOf<T(==)>(s: seq<T>, x: T): (r: Option<nat>)
    ensures r.None? <==> x !in s
    ensures r.Some? ==> r.value < |s| && s[r.value] == x && x !in s[..r.value]
  {
    if s == [] then None
    else if s[0] == x then Some(0)
    else match IndexOf(s[1..], x)
      case None => None
      case Some(k) => assert s[1..][..k] == s[1..k + 1]; Some(k + 1)
  }
}
