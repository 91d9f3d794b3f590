/**
 * JavaScript string operations used throughout the bridge, stated on `seq<char>`:
 * `split` on one character, `join`, `trim`/`trimStart`/`trimEnd`, `startsWith`/`endsWith`,
 * `parseInt(s, 10)` and the decimal rendering of a number in a template literal.
 */
module Strings {
  import opened Base

  type String = seq<char>

  /**
   * The characters `String.prototype.trim` removes: the ASCII spaces, the Unicode space
   * separators, the line terminators and the byte-order mark.
   */
  predicate IsWhitespace(c: char)
  {
    if c < '\U{00A0}' then c == ' ' || ('\t' <= c <= '\r')
    else c == '\U{00A0}' || c == '\U{1680}' || ('\U{2000}' <= c <= '\U{200A}') || c == '\U{2028}'
         || c == '\U{2029}' || c == '\U{202F}' || c == '\U{205F}' || c == '\U{3000}' || c == '\U{FEFF}'
  }

  predicate NoWhitespace(s: String)
  {
    forall i :: 0 <= i < |s| ==> !IsWhitespace(s[i])
  }

  predicate AllWhitespace(s: String)
  {
    forall i :: 0 <= i < |s| ==> IsWhitespace(s[i])
  }

  predicate StartsWith(s: String, prefix: String)
  {
    |prefix| <= |s| && s[..|prefix|] == prefix
  }

  lemma StartsWithConcat(p: String, q: String)
    ensures StartsWith(p + q, p)
  {
    assert (p + q)[..|p|] == p;
  }

  /** A text starts with the first of the three pieces it is made of. */
  lemma StartsWithThree(a: String, b: String, d: String)
    ensures StartsWith(a + b + d, a)
  {
    assert (a + b + d)[..|a|] == a;
  }

  /** A text starts with the first of the pieces it is made of. */
  lemma StartsWithFour(c: String, a: String, b: String, d: String, x: String, y: String, z: String)
    requires c == a + (b + d) + x + y + z
    ensures StartsWith(c, a + b + d)
  {
    var h := a + b + d;
    assert a + (b + d) == h;
    assert c == h + (x + y + z);
    assert c[..|h|] == h;
  }

  predicate EndsWith(s: String, suffix: String)
  {
    |suffix| <= |s| && s[|s| - |suffix|..] == suffix
  }

  /** A common prefix cancels. */
  lemma PrefixCancel(prefix: String, a: String, b: String)
    requires prefix + a == prefix + b
    ensures a == b
  {
    assert a == (prefix + a)[|prefix|..];
  }

  /** A common suffix cancels. */
  lemma SuffixCancel(a: String, b: String, suffix: String)
    requires a + suffix == b + suffix
    ensures a == b
  {
    assert a == (a + suffix)[..|a|];
    assert b == (b + suffix)[..|b|];
  }

  /** `s.includes(sub)`. */
  predicate Contains(s: String, sub: String)
  {
    exists i :: 0 <= i <= |s| - |sub| && OccursAt(s, sub, i)
  }

  predicate OccursAt(s: String, sub: String, i: int)
  {
    0 <= i <= |s| - |sub| && s[i..i + |sub|] == sub
  }

  /** `s.trimStart()`. */
  function TrimStart(s: String): String
  {
    if |s| > 0 && IsWhitespace(s[0]) then TrimStart(s[1..]) else s
  }

  /** `s.trimEnd()`. */
  function TrimEnd(s: String): String
  {
    if |s| > 0 && IsWhitespace(s[|s| - 1]) then TrimEnd(s[..|s| - 1]) else s
  }

  /** `s.trim()`. */
  function Trim(s: String): String
  {
    TrimEnd(TrimStart(s))
  }

  /** `trimStart` removes exactly the leading whitespace. */
  lemma {:induction false} TrimStartSpec(s: String)
    ensures var r := TrimStart(s);
      |r| <= |s| && r == s[|s| - |r|..] && AllWhitespace(s[..|s| - |r|])
      && (|r| == 0 || !IsWhitespace(r[0]))
  {
    if |s| > 0 && IsWhitespace(s[0]) {
      TrimStartSpec(s[1..]);
      var t := TrimStart(s[1..]);
      assert s[..|s| - |t|] == [s[0]] + s[1..][..|s| - 1 - |t|];
    }
  }

  /** `trimEnd` removes exactly the trailing whitespace. */
  lemma {:induction false} TrimEndSpec(s: String)
    ensures var r := TrimEnd(s);
      |r| <= |s| && r == s[..|r|] && AllWhitespace(s[|r|..])
      && (|r| == 0 || !IsWhitespace(r[|r| - 1]))
  {
    if |s| > 0 && IsWhitespace(s[|s| - 1]) {
      TrimEndSpec(s[..|s| - 1]);
      var t := TrimEnd(s[..|s| - 1]);
      assert s[|t|..] == s[..|s| - 1][|t|..] + [s[|s| - 1]];
    }
  }

  /** `trim` leaves a string with neither leading nor trailing whitespace. */
  lemma TrimSpec(s: String)
    ensures var r := Trim(s);
      |r| <= |s| && (|r| == 0 || (!IsWhitespace(r[0]) && !IsWhitespace(r[|r| - 1])))
  {
    TrimStartSpec(s);
    TrimEndSpec(TrimStart(s));
    var t := TrimStart(s);
    var r := TrimEnd(t);
    if |r| > 0 {
      assert r[0] == t[0];
    }
  }

  lemma {:induction false} TrimEndAppendWhitespace(x: String, w: String)
    requires |x| == 0 || !IsWhitespace(x[|x| - 1])
    requires AllWhitespace(w)
    ensures TrimEnd(x + w) == x
    decreases |w|
  {
    if |w| > 0 {
      assert (x + w)[..|x + w| - 1] == x + w[..|w| - 1];
      TrimEndAppendWhitespace(x, w[..|w| - 1]);
    } else {
      assert x + w == x;
    }
  }

  lemma {:induction false} TrimStartPrependWhitespace(w: String, x: String)
    requires |x| == 0 || !IsWhitespace(x[0])
    requires AllWhitespace(w)
    ensures TrimStart(w + x) == x
    decreases |w|
  {
    if |w| > 0 {
      assert (w + x)[1..] == w[1..] + x;
      TrimStartPrependWhitespace(w[1..], x);
    } else {
      assert w + x == x;
    }
  }

  /** A string with no surrounding whitespace is its own trim. */
  lemma TrimOfTrimmed(s: String)
    requires |s| == 0 || (!IsWhitespace(s[0]) && !IsWhitespace(s[|s| - 1]))
    ensures Trim(s) == s
  {
  }

  /** Trimming a string that has whitespace appended after a trimmed core yields the core. */
  lemma TrimDropsTrailing(x: String, w: String)
    requires |x| > 0 && !IsWhitespace(x[0]) && !IsWhitespace(x[|x| - 1])
    requires AllWhitespace(w)
    ensures Trim(x + w) == x
  {
    assert (x + w)[0] == x[0];
    TrimEndAppendWhitespace(x, w);
  }

  /** `s.split(c)` for a one-character separator. */
  function Split(s: String, c: char): (r: seq<String>)
    ensures |r| >= 1
    ensures forall i :: 0 <= i < |r| ==> c !in r[i]
  {
    if |s| == 0 then [""]
    else
      var rest := Split(s[1..], c);
      if s[0] == c then [""] + rest
      else [[s[0]] + rest[0]] + rest[1..]
  }

  /** `parts.join(sep)`. */
  function Join(parts: seq<String>, sep: String): String
  {
    if |parts| == 0 then ""
    else if |parts| == 1 then parts[0]
    else parts[0] + sep + Join(parts[1..], sep)
  }

  lemma JoinAppendOne(parts: seq<String>, p: String, sep: String)
    requires |parts| > 0
    ensures Join(parts + [p], sep) == Join(parts, sep) + sep + p
  {
    if |parts| == 1 {
    } else {
      assert (parts + [p])[1..] == parts[1..] + [p];
      JoinAppendOne(parts[1..], p, sep);
    }
  }

  lemma {:induction false} JoinConcat(a: seq<String>, b: seq<String>, sep: String)
    requires |a| > 0 && |b| > 0
    ensures Join(a + b, sep) == Join(a, sep) + sep + Join(b, sep)
  {
    if |a| == 1 {
      assert (a + b)[1..] == b;
    } else {
      assert (a + b)[1..] == a[1..] + b;
      JoinConcat(a[1..], b, sep);
    }
  }

  /** A join contains a character only if a part or the separator does. */
  lemma {:induction false} JoinNoChar(parts: seq<String>, sep: String, c: char)
    requires c !in sep
    requires forall i :: 0 <= i < |parts| ==> c !in parts[i]
    ensures c !in Join(parts, sep)
  {
    if |parts| > 1 {
      JoinNoChar(parts[1..], sep, c);
    }
  }

  /** A join starts with its first part. */
  lemma JoinStart(parts: seq<String>, sep: String)
    requires |parts| > 0
    ensures StartsWith(Join(parts, sep), parts[0])
  {
    var j := Join(parts, sep);
    assert j[..|parts[0]|] == parts[0];
  }

  /** A join whose last part is non-empty ends with that part's last character. */
  lemma {:induction false} JoinLast(parts: seq<String>, sep: String)
    requires |parts| > 0 && |parts[|parts| - 1]| > 0
    ensures var j := Join(parts, sep);
      |j| > 0 && j[|j| - 1] == parts[|parts| - 1][|parts[|parts| - 1]| - 1]
  {
    if |parts| > 1 {
      JoinLast(parts[1..], sep);
    }
  }

  lemma NoWhitespaceExcludes(s: String, c: char)
    requires NoWhitespace(s) && IsWhitespace(c)
    ensures c !in s
  {
  }

  /** `s.indexOf(c)`: the first index holding `c`, or -1. */
  function IndexOfChar(s: String, c: char): (i: int)
    ensures -1 <= i < |s|
    ensures i == -1 ==> c !in s
    ensures 0 <= i ==> s[i] == c && c !in s[..i]
  {
    if |s| == 0 then -1
    else if s[0] == c then 0
    else
      var k := IndexOfChar(s[1..], c);
      assert k >= 0 ==> s[..k + 1] == [s[0]] + s[1..][..k];
      if k < 0 then -1 else k + 1
  }

  /** Searching past a prefix that lacks the character. */
  lemma {:induction false} IndexOfCharAfter(p: String, s: String, c: char)
    requires c !in p
    ensures IndexOfChar(p + s, c)
      == if IndexOfChar(s, c) < 0 then -1 else |p| + IndexOfChar(s, c)
  {
    if |p| > 0 {
      assert (p + s)[1..] == p[1..] + s;
      IndexOfCharAfter(p[1..], s, c);
    } else {
      assert p + s == s;
    }
  }

  lemma {:induction false} SplitNoSeparator(s: String, c: char)
    requires c !in s
    ensures Split(s, c) == [s]
  {
    if |s| > 0 {
      SplitNoSeparator(s[1..], c);
      assert [s[0]] + s[1..] == s;
    }
  }

  lemma {:induction false} SplitAtFirst(x: String, c: char, y: String)
    requires c !in x
    ensures Split(x + [c] + y, c) == [x] + Split(y, c)
  {
    var s := x + [c] + y;
    if |x| == 0 {
      assert s[1..] == y;
    } else {
      assert s[1..] == x[1..] + [c] + y;
      SplitAtFirst(x[1..], c, y);
      assert [x[0]] + x[1..] == x;
    }
  }

  /** Three leading fields free of the separator split off one by one. */
  lemma SplitThree(w0: String, w1: String, w2: String, t: String, c: char)
    requires c !in w0 && c !in w1 && c !in w2
    ensures Split(w0 + [c] + (w1 + [c] + (w2 + [c] + t)), c) == [w0, w1, w2] + Split(t, c)
  {
    SplitAtFirst(w2, c, t);
    SplitAtFirst(w1, c, w2 + [c] + t);
    SplitAtFirst(w0, c, w1 + [c] + (w2 + [c] + t));
  }

  /** Splitting a join on a separator the parts do not contain gives the parts back. */
  lemma {:induction false} SplitJoin(parts: seq<String>, c: char)
    requires |parts| > 0
    requires forall i :: 0 <= i < |parts| ==> c !in parts[i]
    ensures Split(Join(parts, [c]), c) == parts
  {
    if |parts| == 1 {
      SplitNoSeparator(parts[0], c);
    } else {
      SplitJoin(parts[1..], c);
      SplitAtFirst(parts[0], c, Join(parts[1..], [c]));
      assert [parts[0]] + parts[1..] == parts;
    }
  }

  /** Joining the pieces of a split with the same separator gives the string back. */
  lemma {:induction false} JoinSplit(s: String, c: char)
    ensures Join(Split(s, c), [c]) == s
  {
    if |s| > 0 {
      JoinSplit(s[1..], c);
      var rest := Split(s[1..], c);
      if s[0] != c {
        if |rest| > 1 {
          assert ([[s[0]] + rest[0]] + rest[1..])[1..] == rest[1..];
        }
      }
      assert [s[0]] + s[1..] == s;
    }
  }

  /** Splitting around one separator splits each side on its own. */
  lemma {:induction false} SplitAppend(a: String, c: char, b: String)
    ensures Split(a + [c] + b, c) == Split(a, c) + Split(b, c)
  {
    if |a| == 0 {
      assert a + [c] + b == [c] + b;
      assert ([c] + b)[1..] == b;
    } else {
      assert (a + [c] + b)[1..] == a[1..] + [c] + b;
      SplitAppend(a[1..], c, b);
    }
  }

  /** The pieces of `s.split(c)` followed by the remainder are what `s` holds. */
  lemma SplitCount(s: String, c: char)
    ensures |Split(s, c)| == |Filter(s, (x: char) => x == c)| + 1
  {
    if |s| > 0 {
      SplitCount(s[1..], c);
    }
  }

  predicate IsDigit(c: char)
  {
    '0' <= c <= '9'
  }

  function DigitValue(c: char): nat
    requires IsDigit(c)
  {
    (c - '0') as nat
  }

  function DigitChar(d: nat): (c: char)
    requires d < 10
    ensures IsDigit(c) && DigitValue(c) == d
  {
    ('0' as int + d) as char
  }

  /** The longest prefix of `s` made of decimal digits. */
  function DigitPrefix(s: String): (r: String)
    ensures |r| <= |s| && r == s[..|r|]
    ensures forall i :: 0 <= i < |r| ==> IsDigit(r[i])
    ensures |r| == |s| || !IsDigit(s[|r|])
  {
    if |s| > 0 && IsDigit(s[0]) then
      var t := DigitPrefix(s[1..]);
      assert [s[0]] + t == s[..|t| + 1];
      [s[0]] + t
    else ""
  }

  lemma {:induction false} DigitPrefixOfDigits(s: String, rest: String)
    requires forall i :: 0 <= i < |s| ==> IsDigit(s[i])
    requires |rest| == 0 || !IsDigit(rest[0])
    ensures DigitPrefix(s + rest) == s
  {
    if |s| > 0 {
      assert (s + rest)[1..] == s[1..] + rest;
      DigitPrefixOfDigits(s[1..], rest);
      assert [s[0]] + s[1..] == s;
    } else {
      assert s + rest == rest;
    }
  }

  /** The number a run of decimal digits denotes. */
  function DigitsValue(s: String): nat
    requires forall i :: 0 <= i < |s| ==> IsDigit(s[i])
  {
    if |s| == 0 then 0
    else 10 * DigitsValue(s[..|s| - 1]) + DigitValue(s[|s| - 1])
  }

  // ---------------------------------------------------------------------------------------------
  // The order in which `Object.keys` lists an object's keys
  // ---------------------------------------------------------------------------------------------

  /**
   * A canonical array index: "0", or decimal digits without a leading zero whose value is below
   * 2^32 - 1. An object lists these keys first, in ascending numeric order, whatever the order
   * they were assigned in.
   */
  predicate IsIndexKey(k: String)
  {
    |k| > 0 && (forall i :: 0 <= i < |k| ==> IsDigit(k[i])) && (k[0] == '0' ==> |k| == 1)
    && DigitsValue(k) < 0xFFFF_FFFF
  }

  predicate IsIndexEntry<V>(e: (String, V)) { IsIndexKey(e.0) }

  predicate IsNamedEntry<V>(e: (String, V)) { !IsIndexKey(e.0) }

  /** No key of the object is an array index, so it lists its keys in assignment order. */
  predicate PlainKeys<V>(m: seq<(String, V)>)
  {
    forall i :: 0 <= i < |m| ==> !IsIndexKey(m[i].0)
  }

  function IndexValue(k: String): nat
  {
    if IsIndexKey(k) then DigitsValue(k) else 0
  }

  /** Inserts an entry before the first one whose index is not smaller. */
  function InsertByIndex<V>(e: (String, V), s: seq<(String, V)>): (r: seq<(String, V)>)
    ensures |r| == |s| + 1
    ensures forall x :: x in r ==> x == e || x in s
  {
    if |s| == 0 then [e]
    else if IndexValue(e.0) <= IndexValue(s[0].0) then [e] + s
    else [s[0]] + InsertByIndex(e, s[1..])
  }

  /** The entries sorted by ascending array index. */
  function SortByIndex<V>(s: seq<(String, V)>): (r: seq<(String, V)>)
    ensures |r| == |s|
    ensures forall x :: x in r ==> x in s
  {
    if |s| == 0 then [] else InsertByIndex(s[0], SortByIndex(s[1..]))
  }

  /**
   * The entries of an object in the order `Object.keys`, `Object.values` and `Object.entries`
   * list them: the array-index keys in ascending order, then the other keys in assignment order.
   */
  function ObjectOrder<V>(m: seq<(String, V)>): seq<(String, V)>
  {
    SortByIndex(Filter(m, IsIndexEntry)) + Filter(m, IsNamedEntry)
  }

  /** An object without array-index keys lists its entries in assignment order. */
  lemma ObjectOrderPlain<V(!new)>(m: seq<(String, V)>)
    requires PlainKeys(m)
    ensures ObjectOrder(m) == m
  {
    forall x | x in m
      ensures !IsIndexEntry(x) && IsNamedEntry(x)
    {
    }
    FilterNoneKept(m, IsIndexEntry);
    FilterAllKept(m, IsNamedEntry);
  }

  /** An object holding an array-index key lists one first. */
  lemma ObjectOrderIndexFirst<V>(m: seq<(String, V)>, i: nat)
    requires i < |m| && IsIndexKey(m[i].0)
    ensures |ObjectOrder(m)| > 0 && IsIndexKey(ObjectOrder(m)[0].0)
  {
    var idx := Filter(m, IsIndexEntry);
    FilterMembers(m, IsIndexEntry, m[i]);
    var sorted := SortByIndex(idx);
    assert sorted[0] in sorted;
    FilterMembers(m, IsIndexEntry, sorted[0]);
  }

  /**
   * `parseInt(s, 10)`: leading whitespace skipped, an optional sign, then the longest run of
   * digits; `None` is JavaScript's NaN (no digits at all).
   */
  function ParseInt10(s: String): Option<int>
  {
    var t := TrimStart(s);
    var negative := |t| > 0 && t[0] == '-';
    var body := if |t| > 0 && (t[0] == '-' || t[0] == '+') then t[1..] else t;
    var d := DigitPrefix(body);
    if |d| == 0 then None
    else
      var v: int := DigitsValue(d);
      Some(if negative then -v else v)
  }

  /** The text `parseInt` reads its digits from: leading whitespace and one sign skipped. */
  function SignedBody(s: String): String
  {
    var t := TrimStart(s);
    if |t| > 0 && (t[0] == '-' || t[0] == '+') then t[1..] else t
  }

  /** Whether `parseInt` without a radix switches to base 16: the digits start with "0x" or "0X". */
  predicate HexMarked(s: String)
  {
    var b := SignedBody(s);
    |b| >= 2 && b[0] == '0' && (b[1] == 'x' || b[1] == 'X')
  }

  predicate IsHexDigit(c: char)
  {
    IsDigit(c) || ('a' <= c <= 'f') || ('A' <= c <= 'F')
  }

  function HexDigitValue(c: char): (d: nat)
    requires IsHexDigit(c)
    ensures d < 16
  {
    if IsDigit(c) then DigitValue(c)
    else if 'a' <= c <= 'f' then c as int - 'a' as int + 10
    else c as int - 'A' as int + 10
  }

  /** The longest prefix of `s` made of hexadecimal digits. */
  function HexPrefix(s: String): (r: String)
    ensures |r| <= |s| && r == s[..|r|]
    ensures forall i :: 0 <= i < |r| ==> IsHexDigit(r[i])
    ensures |r| == |s| || !IsHexDigit(s[|r|])
  {
    if |s| > 0 && IsHexDigit(s[0]) then
      var t := HexPrefix(s[1..]);
      assert [s[0]] + t == s[..|t| + 1];
      [s[0]] + t
    else ""
  }

  /** The number a run of hexadecimal digits denotes. */
  function HexValue(s: String): nat
    requires forall i :: 0 <= i < |s| ==> IsHexDigit(s[i])
  {
    if |s| == 0 then 0
    else 16 * HexValue(s[..|s| - 1]) + HexDigitValue(s[|s| - 1])
  }

  /**
   * `parseInt(s)` without a radix: as `parseInt(s, 10)`, except that digits introduced by "0x"
   * or "0X" are read in base 16 (and none after the marker is NaN).
   */
  function ParseIntAuto(s: String): (r: Option<int>)
    ensures !HexMarked(s) ==> r == ParseInt10(s)
    ensures HexMarked(s) ==> (r.None? <==> HexPrefix(SignedBody(s)[2..]) == "")
  {
    var t := TrimStart(s);
    var negative := |t| > 0 && t[0] == '-';
    var body := SignedBody(s);
    if HexMarked(s) then
      var h := HexPrefix(body[2..]);
      if |h| == 0 then None
      else
        var v: int := HexValue(h);
        Some(if negative then -v else v)
    else ParseInt10(s)
  }

  /** The decimal rendering of a natural number, as `${n}` produces it. */
  function NatToString(n: nat): (r: String)
    ensures |r| > 0
    ensures forall i :: 0 <= i < |r| ==> IsDigit(r[i])
    ensures |r| > 1 ==> r[0] != '0'
  {
    if n < 10 then [DigitChar(n)]
    else NatToString(n / 10) + [DigitChar(n % 10)]
  }

  /** The decimal rendering of an integer, with a leading `-` when negative. */
  function IntToString(n: int): (r: String)
  {
    if n < 0 then "-" + NatToString(-n) else NatToString(n)
  }

  lemma {:induction false} NatToStringValue(n: nat)
    ensures DigitsValue(NatToString(n)) == n
  {
    if n >= 10 {
      NatToStringValue(n / 10);
      var r := NatToString(n);
      assert r[..|r| - 1] == NatToString(n / 10);
    }
  }

  lemma TrimStartNoLead(s: String)
    requires |s| == 0 || !IsWhitespace(s[0])
    ensures TrimStart(s) == s
  {
  }

  lemma {:induction false} DigitPrefixAll(s: String)
    requires forall i :: 0 <= i < |s| ==> IsDigit(s[i])
    ensures DigitPrefix(s) == s
  {
    if |s| > 0 {
      DigitPrefixAll(s[1..]);
      assert [s[0]] + s[1..] == s;
    }
  }

  lemma ParseDigits(r: String)
    requires |r| > 0 && forall i :: 0 <= i < |r| ==> IsDigit(r[i])
    ensures ParseInt10(r) == Some(DigitsValue(r) as int)
  {
    assert IsDigit(r[0]);
    TrimStartNoLead(r);
    DigitPrefixAll(r);
  }

  /** Rendering a natural number and parsing it back gives the number. */
  lemma ParseNatToString(n: nat)
    ensures ParseInt10(NatToString(n)) == Some(n)
  {
    ParseDigits(NatToString(n));
    NatToStringValue(n);
  }

  /** Rendering an integer and parsing it back gives the integer. */
  lemma ParseIntToString(n: int)
    ensures ParseInt10(IntToString(n)) == Some(n)
  {
    if n < 0 {
      ParseNegative(-n);
    } else {
      ParseNatToString(n);
    }
  }

  lemma ParseNegative(m: nat)
    ensures ParseInt10("-" + NatToString(m)) == Some(-(m as int))
  {
    var r := NatToString(m);
    var s := "-" + r;
    TrimStartNoLead(s);
    assert s[0] == '-' && s[1..] == r;
    DigitPrefixAll(r);
    NatToStringValue(m);
    var v: int := DigitsValue(r);
    assert ParseInt10(s) == Some(-v);
  }

  /** Different natural numbers render differently. */
  lemma NatToStringInjective(m: nat, n: nat)
    requires NatToString(m) == NatToString(n)
    ensures m == n
  {
    ParseNatToString(m);
    ParseNatToString(n);
  }
  // ---------------------------------------------------------------------------------------------
  // Case mapping (ASCII letters)
  // ---------------------------------------------------------------------------------------------

  function LowerChar(c: char): char
  {
    if 'A' <= c <= 'Z' then (c as int + 32) as char else c
  }

  function UpperChar(c: char): char
  {
    if 'a' <= c <= 'z' then (c as int - 32) as char else c
  }

  /**
   * `s.toLowerCase()` on ASCII letters; other characters are kept as they are, where JavaScript
   * maps them by the full Unicode tables.
   */
  function Lower(s: String): String
  {
    seq(|s|, i requires 0 <= i < |s| => LowerChar(s[i]))
  }

  /** `s.toUpperCase()` on ASCII letters; other characters are kept as they are. */
  function Upper(s: String): String
  {
    seq(|s|, i requires 0 <= i < |s| => UpperChar(s[i]))
  }

  /**
   * Lower-casing forgets an upper-casing done before it, for the ASCII mapping above. (Under the
   * full Unicode mapping it fails: "ſ" upper-cases to "S", which lower-cases to "s".)
   */
  lemma LowerOfUpper(s: String)
    ensures Lower(Upper(s)) == Lower(s)
  {
    forall i | 0 <= i < |s|
      ensures Lower(Upper(s))[i] == Lower(s)[i]
    {
      assert Upper(s)[i] == UpperChar(s[i]);
    }
  }

  /**
   * `splitLimit(s, sep, n)`: `s` cut at its first `n - 1` separators (any character of `seps`),
   * the remainder kept whole in the last piece.
   */
  function SplitLimit(s: String, seps: set<char>, n: nat): (r: seq<String>)
    ensures 1 <= |r| <= if n == 0 then 1 else n
    decreases n
  {
    if n <= 1 then [s]
    else
      var i := FindIndex(s, (c: char) => c in seps);
      if i < 0 then [s] else [s[..i]] + SplitLimit(s[i + 1..], seps, n - 1)
  }

  /** A string with no separator stays whole. */
  lemma SplitLimitNone(s: String, seps: set<char>, n: nat)
    requires forall i :: 0 <= i < |s| ==> s[i] !in seps
    ensures SplitLimit(s, seps, n) == [s]
  {
    if n > 1 {
      assert FindIndex(s, (c: char) => c in seps) == -1;
    }
  }

  /** Cutting in two at the first separator gives the text before it and the whole remainder. */
  lemma SplitLimitFirst(k: String, c: char, v: String, seps: set<char>)
    requires forall i :: 0 <= i < |k| ==> k[i] !in seps
    requires c in seps
    ensures SplitLimit(k + [c] + v, seps, 2) == [k, v]
  {
    var s := k + [c] + v;
    var i := FindIndex(s, (x: char) => x in seps);
    assert s[|k|] == c && c in s;
    assert forall j :: 0 <= j < |k| ==> s[j] == k[j];
    assert i == |k|;
    assert s[..i] == k && s[i + 1..] == v;
  }

  /** Cutting at the first separator keeps the text before it and splits the rest one piece fewer. */
  lemma SplitLimitCons(k: String, c: char, v: String, seps: set<char>, n: nat)
    requires forall i :: 0 <= i < |k| ==> k[i] !in seps
    requires c in seps && n >= 2
    ensures SplitLimit(k + [c] + v, seps, n) == [k] + SplitLimit(v, seps, n - 1)
  {
    var s := k + [c] + v;
    var i := FindIndex(s, (x: char) => x in seps);
    assert s[|k|] == c && c in s;
    assert forall j :: 0 <= j < |k| ==> s[j] == k[j];
    assert i == |k|;
    assert s[..i] == k && s[i + 1..] == v;
  }
}
