/**
 * The runtime-version catalogue (src/binaries/update.js): version lists gathered without
 * duplicates, sorted by `sortSemver` and reversed so that the newest comes first.
 *
 * `sortSemver` pads every number in a version by adding 100000, sorts the padded strings with
 * JavaScript's default string order and takes the 100000 off again. The downloads that feed the
 * lists are parameters: the versions found, in page order.
 */
module Update {
  import opened Base
  import opened Strings

  // ---------------------------------------------------------------------------------------------
  // JavaScript's default string order and `Array.prototype.sort`
  // ---------------------------------------------------------------------------------------------

  /** `a < b` on strings: the first differing character decides; a proper prefix comes first. */
  predicate Less(a: String, b: String)
  {
    |b| > 0 && (|a| == 0 || a[0] < b[0] || (a[0] == b[0] && Less(a[1..], b[1..])))
  }

  lemma {:induction false} LessIrreflexive(a: String)
    ensures !Less(a, a)
  {
    if |a| > 0 {
      LessIrreflexive(a[1..]);
    }
  }

  lemma {:induction false} LessTransitive(a: String, b: String, c: String)
    ensures Less(a, b) && Less(b, c) ==> Less(a, c)
  {
    if |a| > 0 && |b| > 0 && |c| > 0 && a[0] == b[0] && b[0] == c[0] {
      LessTransitive(a[1..], b[1..], c[1..]);
    }
  }

  lemma {:induction false} LessTotal(a: String, b: String)
    ensures a == b || Less(a, b) || Less(b, a)
  {
    if |a| > 0 && |b| > 0 && a[0] == b[0] {
      LessTotal(a[1..], b[1..]);
      if a[1..] == b[1..] {
        assert a == [a[0]] + a[1..] && b == [b[0]] + b[1..];
      }
    }
  }

  /** The comparison of strings that start with blocks of one length is decided by the blocks first. */
  lemma {:induction false} LessBlocks(u: String, v: String, s: String, t: String)
    requires |u| == |v|
    ensures Less(u + s, v + t) <==> Less(u, v) || (u == v && Less(s, t))
  {
    if |u| > 0 {
      assert (u + s)[1..] == u[1..] + s && (v + t)[1..] == v[1..] + t;
      LessBlocks(u[1..], v[1..], s, t);
      if u[0] == v[0] && u[1..] == v[1..] {
        assert u == [u[0]] + u[1..] && v == [v[0]] + v[1..];
      }
      if u == v {
        assert u[1..] == v[1..];
        LessIrreflexive(u);
      }
    } else {
      assert u + s == s && v + t == t;
    }
  }

  /** No later element comes before an earlier one. */
  predicate Sorted(s: seq<String>)
  {
    forall i, j :: 0 <= i < j < |s| ==> !Less(s[j], s[i])
  }

  /** `x` placed after every element that comes before it. */
  function Insert(x: String, s: seq<String>): (r: seq<String>)
    ensures multiset(r) == multiset(s) + multiset{x}
  {
    if |s| == 0 then [x]
    else if Less(s[0], x) then
      assert s == [s[0]] + s[1..];
      [s[0]] + Insert(x, s[1..])
    else [x] + s
  }

  lemma {:induction false} InsertSorted(x: String, s: seq<String>)
    requires Sorted(s)
    ensures Sorted(Insert(x, s))
  {
    if |s| > 0 {
      if Less(s[0], x) {
        InsertSorted(x, s[1..]);
        var r := Insert(x, s);
        forall j | 0 < j < |r| ensures !Less(r[j], r[0]) {
          assert r[j] in multiset(Insert(x, s[1..]));
          if r[j] == x {
            LessIrreflexive(x);
            LessTransitive(x, s[0], x);
          } else {
            assert r[j] in multiset(s[1..]);
            var k :| 0 <= k < |s[1..]| && s[1..][k] == r[j];
            assert s[k + 1] == r[j];
          }
        }
      } else {
        LessTotal(x, s[0]);
        forall j | 0 <= j < |s| ensures !Less(s[j], x) {
          LessTransitive(s[j], x, s[0]);
        }
      }
    }
  }

  /** The sort as JavaScript's default comparison orders: sorted, and a permutation of `s`. */
  function Sort(s: seq<String>): (r: seq<String>)
    ensures multiset(r) == multiset(s)
    ensures Sorted(r)
  {
    if |s| == 0 then []
    else
      assert s == [s[0]] + s[1..];
      InsertSorted(s[0], Sort(s[1..]));
      Insert(s[0], Sort(s[1..]))
  }

  // ---------------------------------------------------------------------------------------------
  // `sortSemver`
  // ---------------------------------------------------------------------------------------------

  /** `s.replace(/\d+/g, f)`: every maximal run of decimal digits replaced by `f` of it. */
  function ReplaceRuns(s: String, f: String -> String): String
    decreases |s|
  {
    if |s| == 0 then ""
    else if IsDigit(s[0]) then
      var d := DigitPrefix(s);
      f(d) + ReplaceRuns(s[|d|..], f)
    else [s[0]] + ReplaceRuns(s[1..], f)
  }

  /** `+n` for a run of digits `n`. */
  function RunValue(d: String): nat
  {
    DigitsValue(DigitPrefix(d))
  }

  /** `n => +n + 100000 + ''`. */
  function Pad(d: String): String
  {
    Six(RunValue(d))
  }

  /** `n => +n - 100000 + ''`. */
  function Unpad(d: String): String
  {
    IntToString(RunValue(d) - 100000)
  }

  /** A run of digits as its value is written: without leading zeros. */
  function Plain(d: String): String
  {
    NatToString(RunValue(d))
  }

  function Padded(s: String): String
  {
    ReplaceRuns(s, Pad)
  }

  function Unpadded(s: String): String
  {
    ReplaceRuns(s, Unpad)
  }

  /** Every number of the text written without leading zeros. */
  function Normalized(s: String): String
  {
    ReplaceRuns(s, Plain)
  }

  /** `sortSemver(arr)`: padded, sorted as strings, unpadded. */
  function SortSemver(arr: seq<String>): (r: seq<String>)
    ensures |r| == |arr|
  {
    var sorted := Sort(MapSeq(arr, Padded));
    assert |sorted| == |multiset(sorted)| == |arr|;
    MapSeq(sorted, Unpadded)
  }

  /** No run of digits in the text starts with a `0` unless it is `0` itself. */
  predicate Canonical(s: String)
    decreases |s|
  {
    if |s| == 0 then true
    else if IsDigit(s[0]) then
      var d := DigitPrefix(s);
      (|d| == 1 || d[0] != '0') && Canonical(s[|d|..])
    else Canonical(s[1..])
  }

  lemma RunsNonDigit(c: char, t: String, f: String -> String)
    requires !IsDigit(c)
    ensures ReplaceRuns([c] + t, f) == [c] + ReplaceRuns(t, f)
  {
    assert ([c] + t)[1..] == t;
  }

  lemma RunsDigits(run: String, t: String, f: String -> String)
    requires |run| > 0 && forall i :: 0 <= i < |run| ==> IsDigit(run[i])
    requires |t| == 0 || !IsDigit(t[0])
    ensures ReplaceRuns(run + t, f) == f(run) + ReplaceRuns(t, f)
  {
    DigitPrefixOfDigits(run, t);
    assert (run + t)[0] == run[0];
    assert (run + t)[|run|..] == t;
  }

  /** The replacement of a text that does not start with a digit starts as the text does. */
  lemma RunsHead(t: String, f: String -> String)
    ensures |t| == 0 ==> ReplaceRuns(t, f) == ""
    ensures |t| > 0 && !IsDigit(t[0]) ==> |ReplaceRuns(t, f)| > 0 && ReplaceRuns(t, f)[0] == t[0]
  {
  }

  /** Unpadding a padded run of digits writes its value without leading zeros. */
  lemma UnpadPad(d: String)
    ensures Unpad(Pad(d)) == Plain(d)
  {
    var v := RunValue(d);
    var n := v + 100000;
    assert Pad(d) == NatToString(n);
    UnpadWritten(n);
  }

  lemma UnpadWritten(n: nat)
    requires n >= 100000
    ensures Unpad(NatToString(n)) == NatToString(n - 100000)
  {
    WrittenValue(n);
    var m: nat := n - 100000;
    assert IntToString(m) == NatToString(m);
  }

  /** A number written out is one run of digits, and that run has the number as its value. */
  lemma WrittenValue(n: nat)
    ensures DigitPrefix(NatToString(n)) == NatToString(n)
    ensures RunValue(NatToString(n)) == n
  {
    DigitPrefixAll(NatToString(n));
    NatToStringValue(n);
  }

  /** Unpadding a padded run followed by padded text that does not start with a digit. */
  lemma UnpadRun(d: String, rest: String)
    requires |rest| == 0 || !IsDigit(rest[0])
    ensures Unpadded(Pad(d) + Padded(rest)) == Plain(d) + Unpadded(Padded(rest))
  {
    RunsHead(rest, Pad);
    RunsDigits(Pad(d), Padded(rest), Unpad);
    UnpadPad(d);
  }

  /** Padding and unpadding give back the text with every number written without leading zeros. */
  lemma {:induction false} RunsRoundTrip(s: String)
    ensures Unpadded(Padded(s)) == Normalized(s)
    decreases |s|
  {
    if |s| > 0 {
      if IsDigit(s[0]) {
        var d := DigitPrefix(s);
        var rest := s[|d|..];
        RunsRoundTrip(rest);
        UnpadRun(d, rest);
      } else {
        RunsRoundTrip(s[1..]);
        RunsNonDigit(s[0], Padded(s[1..]), Unpad);
      }
    }
  }

  lemma {:induction false} LeadingPositive(d: String)
    requires |d| > 0 && forall i :: 0 <= i < |d| ==> IsDigit(d[i])
    requires d[0] != '0'
    ensures DigitsValue(d) >= 1
    decreases |d|
  {
    if |d| > 1 {
      assert d[..|d| - 1][0] == d[0];
      LeadingPositive(d[..|d| - 1]);
    }
  }

  lemma DivTen(x: nat, r: nat)
    requires r < 10
    ensures (10 * x + r) / 10 == x && (10 * x + r) % 10 == r
  {
  }

  /** Writing out a number of two digits or more: its leading digits, then its last. */
  lemma NatToStringLast(init: String, c: char)
    requires |init| > 0 && forall i :: 0 <= i < |init| ==> IsDigit(init[i])
    requires IsDigit(c) && DigitsValue(init) >= 1
    ensures NatToString(DigitsValue(init + [c])) == NatToString(DigitsValue(init)) + [c]
  {
    var d := init + [c];
    assert d[..|d| - 1] == init && d[|d| - 1] == c;
    var x := DigitsValue(init);
    var v := DigitsValue(d);
    assert v == 10 * x + DigitValue(c);
    DivTen(x, DigitValue(c));
    assert NatToString(v) == NatToString(x) + [DigitChar(DigitValue(c))];
    assert DigitChar(DigitValue(c)) == c;
  }

  /** A number written without leading zeros is written back as it was. */
  lemma {:induction false} CanonicalDigits(d: String)
    requires |d| > 0 && forall i :: 0 <= i < |d| ==> IsDigit(d[i])
    requires |d| == 1 || d[0] != '0'
    ensures NatToString(DigitsValue(d)) == d
    decreases |d|
  {
    var init, c := d[..|d| - 1], d[|d| - 1];
    if |d| == 1 {
      assert DigitsValue(d) == DigitValue(c);
      assert DigitChar(DigitValue(c)) == c;
      assert d == [c];
    } else {
      assert init[0] == d[0];
      CanonicalDigits(init);
      LeadingPositive(init);
      assert d == init + [c];
      NatToStringLast(init, c);
    }
  }

  /** A text whose numbers have no leading zeros is its own normal form. */
  lemma {:induction false} NormalizedCanonical(s: String)
    requires Canonical(s)
    ensures Normalized(s) == s
    decreases |s|
  {
    if |s| > 0 {
      if IsDigit(s[0]) {
        var d := DigitPrefix(s);
        NormalizedCanonical(s[|d|..]);
        DigitPrefixAll(d);
        CanonicalDigits(d);
        assert Plain(d) == d;
        assert s == d + s[|d|..];
      } else {
        NormalizedCanonical(s[1..]);
        assert s == [s[0]] + s[1..];
      }
    }
  }

  /** Padding and unpadding give back a text whose numbers have no leading zeros. */
  lemma RoundTrip(s: String)
    requires Canonical(s)
    ensures Unpadded(Padded(s)) == s
  {
    RunsRoundTrip(s);
    NormalizedCanonical(s);
  }

  /** `sortSemver` rearranges the inputs, each with its numbers written without leading zeros. */
  lemma SortSemverPermutation(arr: seq<String>)
    ensures multiset(SortSemver(arr)) == multiset(MapSeq(arr, Normalized))
  {
    var padded := MapSeq(arr, Padded);
    MultisetMap(Sort(padded), padded, Unpadded);
    forall i | 0 <= i < |arr| ensures MapSeq(padded, Unpadded)[i] == MapSeq(arr, Normalized)[i] {
      RunsRoundTrip(arr[i]);
    }
    assert MapSeq(padded, Unpadded) == MapSeq(arr, Normalized);
  }

  /** When no number has a leading zero, `sortSemver` returns a rearrangement of its input. */
  lemma SortSemverCanonical(arr: seq<String>)
    requires forall i :: 0 <= i < |arr| ==> Canonical(arr[i])
    ensures multiset(SortSemver(arr)) == multiset(arr)
  {
    SortSemverPermutation(arr);
    forall i | 0 <= i < |arr| ensures MapSeq(arr, Normalized)[i] == arr[i] {
      NormalizedCanonical(arr[i]);
    }
    assert MapSeq(arr, Normalized) == arr;
  }

  // ---------------------------------------------------------------------------------------------
  // The order `sortSemver` gives dotted versions
  // ---------------------------------------------------------------------------------------------

  function Pow10(k: nat): nat
  {
    if k == 0 then 1 else 10 * Pow10(k - 1)
  }

  lemma {:induction false} NatToStringWidth(n: nat, k: nat)
    requires Pow10(k) <= n < 10 * Pow10(k)
    ensures |NatToString(n)| == k + 1
    decreases k
  {
    if k > 0 {
      NatToStringWidth(n / 10, k - 1);
    }
  }

  /** Strings of digits of one length compare as their values do. */
  lemma {:induction false} DigitsOrder(u: String, v: String)
    requires |u| == |v|
    requires forall i :: 0 <= i < |u| ==> IsDigit(u[i])
    requires forall i :: 0 <= i < |v| ==> IsDigit(v[i])
    ensures Less(u, v) <==> DigitsValue(u) < DigitsValue(v)
    ensures u == v <==> DigitsValue(u) == DigitsValue(v)
    decreases |u|
  {
    if |u| > 0 {
      var u', v' := u[..|u| - 1], v[..|v| - 1];
      var a, b := u[|u| - 1], v[|v| - 1];
      DigitsOrder(u', v');
      assert u == u' + [a] && v == v' + [b];
      LessBlocks(u', v', [a], [b]);
      assert [a][1..] == [] && [b][1..] == [];
      assert Less([a], [b]) <==> a < b;
      var x, y := DigitsValue(u'), DigitsValue(v');
      assert DigitsValue(u) == 10 * x + DigitValue(a);
      assert DigitsValue(v) == 10 * y + DigitValue(b);
    }
  }

  /** A number with 100000 added, written out: for one below 900000, six digits. */
  function Six(x: nat): String
  {
    NatToString(x + 100000)
  }

  lemma Pow10Five()
    ensures Pow10(5) == 100000
  {
    assert Pow10(1) == 10;
    assert Pow10(2) == 100;
    assert Pow10(3) == 1000;
    assert Pow10(4) == 10000;
  }

  /** Below 900000, `Six` writes six digits whose value is the number plus 100000. */
  lemma SixDigits(x: nat)
    requires x < 900000
    ensures |Six(x)| == 6 && DigitsValue(Six(x)) == x + 100000
  {
    Pow10Five();
    NatToStringWidth(x + 100000, 5);
    NatToStringValue(x + 100000);
  }

  lemma SixOrder(x: nat, y: nat)
    requires x < 900000 && y < 900000
    ensures |Six(x)| == 6 && |Six(y)| == 6
    ensures Less(Six(x), Six(y)) <==> x < y
    ensures Six(x) == Six(y) <==> x == y
  {
    SixDigits(x);
    SixDigits(y);
    DigitsOrder(Six(x), Six(y));
  }

  /** A version such as `3.10.0`: its components written out and joined with dots. */
  function Version(xs: seq<nat>): String
  {
    Join(MapSeq(xs, NatToString), ".")
  }

  /** The padded form of a version: each component as six digits. */
  function Blocks(xs: seq<nat>): String
  {
    Join(MapSeq(xs, Six), ".")
  }

  /** Comparison of versions with the same number of components, component by component. */
  predicate NumLess(xs: seq<nat>, ys: seq<nat>)
  {
    |ys| > 0 && (|xs| == 0 || xs[0] < ys[0] || (xs[0] == ys[0] && NumLess(xs[1..], ys[1..])))
  }

  lemma PadNat(x: nat)
    ensures Pad(NatToString(x)) == Six(x)
  {
    var n := NatToString(x);
    DigitPrefixAll(n);
    NatToStringValue(x);
    assert RunValue(n) == x;
  }

  lemma VersionCons(xs: seq<nat>)
    requires |xs| > 1
    ensures Version(xs) == NatToString(xs[0]) + ("." + Version(xs[1..]))
  {
    assert MapSeq(xs, NatToString)[1..] == MapSeq(xs[1..], NatToString);
  }

  lemma BlocksCons(xs: seq<nat>)
    requires |xs| > 1
    ensures Blocks(xs) == Six(xs[0]) + ("." + Blocks(xs[1..]))
  {
    assert MapSeq(xs, Six)[1..] == MapSeq(xs[1..], Six);
  }

  lemma PaddedCons(x: nat, rest: String)
    ensures Padded(NatToString(x) + ("." + rest)) == Six(x) + ("." + Padded(rest))
  {
    PadNat(x);
    RunsDigits(NatToString(x), "." + rest, Pad);
    RunsNonDigit('.', rest, Pad);
  }

  lemma PaddedOne(x: nat)
    ensures Padded(Version([x])) == Six(x)
  {
    var n := NatToString(x);
    PadNat(x);
    assert n + "" == n;
    RunsDigits(n, "", Pad);
  }

  /** Padding a version pads each of its components. */
  lemma {:induction false} VersionPadded(xs: seq<nat>)
    requires |xs| > 0
    ensures Padded(Version(xs)) == Blocks(xs)
    decreases |xs|
  {
    if |xs| == 1 {
      PaddedOne(xs[0]);
      assert xs == [xs[0]];
    } else {
      VersionCons(xs);
      BlocksCons(xs);
      PaddedCons(xs[0], Version(xs[1..]));
      VersionPadded(xs[1..]);
    }
  }

  /** Padded versions of one shape with components below 900000 compare as the numbers do. */
  lemma {:induction false} BlocksOrder(xs: seq<nat>, ys: seq<nat>)
    requires |xs| == |ys| > 0
    requires forall k :: 0 <= k < |xs| ==> xs[k] < 900000 && ys[k] < 900000
    ensures Less(Blocks(xs), Blocks(ys)) <==> NumLess(xs, ys)
    decreases |xs|
  {
    var x, y := xs[0], ys[0];
    SixOrder(x, y);
    if |xs| == 1 {
      assert NumLess(xs, ys) <==> x < y;
    } else {
      BlocksOrder(xs[1..], ys[1..]);
      var p, q := Blocks(xs[1..]), Blocks(ys[1..]);
      BlocksCons(xs);
      BlocksCons(ys);
      LessBlocks(Six(x), Six(y), "." + p, "." + q);
      LessDot(p, q);
    }
  }

  lemma LessDot(p: String, q: String)
    ensures Less("." + p, "." + q) <==> Less(p, q)
  {
    LessBlocks(".", ".", p, q);
    LessIrreflexive(".");
  }

  /**
   * Where the output of `sortSemver` holds two versions of one shape whose components are below
   * 900000, the lower comes first: 3.9.1 before 3.10.0.
   */
  lemma SortSemverOrdered(arr: seq<String>, i: nat, j: nat, xs: seq<nat>, ys: seq<nat>)
    requires forall k :: 0 <= k < |arr| ==> Canonical(arr[k])
    requires i < j < |arr|
    requires SortSemver(arr)[i] == Version(xs) && SortSemver(arr)[j] == Version(ys)
    requires |xs| == |ys| > 0
    requires forall k :: 0 <= k < |xs| ==> xs[k] < 900000 && ys[k] < 900000
    ensures !NumLess(ys, xs)
  {
    var padded := MapSeq(arr, Padded);
    var sorted := Sort(padded);
    assert sorted[i] in multiset(padded) && sorted[j] in multiset(padded);
    var k :| 0 <= k < |padded| && padded[k] == sorted[i];
    var l :| 0 <= l < |padded| && padded[l] == sorted[j];
    RoundTrip(arr[k]);
    RoundTrip(arr[l]);
    VersionPadded(xs);
    VersionPadded(ys);
    BlocksOrder(ys, xs);
  }

  // ---------------------------------------------------------------------------------------------
  // The lists `initUtils` gathers
  // ---------------------------------------------------------------------------------------------

  predicate Distinct(s: seq<String>)
  {
    forall i, j :: 0 <= i < j < |s| ==> s[i] != s[j]
  }

  lemma {:induction false} DistinctCount(s: seq<String>, x: String)
    requires Distinct(s)
    ensures multiset(s)[x] <= 1
    decreases |s|
  {
    if |s| > 0 {
      assert s == [s[0]] + s[1..];
      DistinctCount(s[1..], x);
      if s[0] == x {
        assert x !in s[1..];
      }
    }
  }

  lemma Twice(s: seq<String>, i: nat, j: nat)
    requires i < j < |s|
    ensures s[i] == s[j] ==> multiset(s)[s[i]] >= 2
  {
    assert s == s[..i] + [s[i]] + s[i + 1..j] + [s[j]] + s[j + 1..];
  }

  /** A rearrangement of a list without repeats has none. */
  lemma PermutationDistinct(a: seq<String>, b: seq<String>)
    requires multiset(a) == multiset(b) && Distinct(b)
    ensures Distinct(a)
  {
    forall i, j | 0 <= i < j < |a| ensures a[i] != a[j] {
      Twice(a, i, j);
      DistinctCount(b, a[i]);
    }
  }

  /** The list as `initUtils` leaves it: sorted by `sortSemver`, newest first. */
  function Newest(list: seq<String>): (r: seq<String>)
    ensures |r| == |list|
  {
    Reverse(SortSemver(list))
  }

  /**
   * The versions found, each once, are exactly the versions listed, without repeats, when no
   * number in them has a leading zero.
   */
  lemma NewestOfFound(found: seq<String>)
    requires forall k :: 0 <= k < |found| ==> Canonical(found[k])
    ensures var r := Newest(AppendMissing([], found));
            (forall x :: x in r <==> x in found) && Distinct(r)
  {
    var list := AppendMissing([], found);
    AppendMissingProps([], found);
    forall k | 0 <= k < |list| ensures Canonical(list[k]) {
      assert list[k] in list;
      var m :| 0 <= m < |found| && found[m] == list[k];
    }
    SortSemverCanonical(list);
    ReverseMultiset(SortSemver(list));
    PermutationDistinct(Newest(list), list);
    forall x ensures x in Newest(list) <==> x in list {
      assert x in Newest(list) <==> x in multiset(Newest(list));
      assert x in list <==> x in multiset(list);
    }
  }

  /** In the listed order two versions of one shape stand newest first. */
  lemma NewestFirst(list: seq<String>, i: nat, j: nat, xs: seq<nat>, ys: seq<nat>)
    requires forall k :: 0 <= k < |list| ==> Canonical(list[k])
    requires i < j < |list|
    requires Newest(list)[i] == Version(xs) && Newest(list)[j] == Version(ys)
    requires |xs| == |ys| > 0
    requires forall k :: 0 <= k < |xs| ==> xs[k] < 900000 && ys[k] < 900000
    ensures !NumLess(xs, ys)
  {
    var b := NewestAt(list, i, Version(xs));
    var a := NewestAt(list, j, Version(ys));
    SortSemverOrdered(list, a, b, ys, xs);
  }

  /** The listed order is the sorted order read from the end. */
  lemma NewestAt(list: seq<String>, i: nat, v: String) returns (k: nat)
    requires i < |list| && Newest(list)[i] == v
    ensures k == |list| - 1 - i && SortSemver(list)[k] == v
  {
    var sorted := SortSemver(list);
    assert Newest(list) == Reverse(sorted);
    ReverseAt(sorted, i);
    k := |list| - 1 - i;
  }

  /** The Ruby loop: each version captured is pushed unless the list has it; then sorted. */
  method GatherRuby(found: seq<String>) returns (list: seq<String>)
    ensures list == Newest(AppendMissing([], found))
  {
    list := [];
    for k := 0 to |found|
      invariant list == AppendMissing([], found[..k])
    {
      assert found[..k + 1][..k] == found[..k];
      if found[k] !in list {
        list := list + [found[k]];
      }
    }
    assert found[..|found|] == found;
    list := Newest(list);
  }

  const DefaultTag: String := "20240107"

  /** The release tag: the one the latest-release document names, when it names one. */
  function LatestTag(reply: Option<String>): (tag: String)
    ensures reply.Some? && reply.value != "" ==> tag == reply.value
    ensures reply.None? || reply.value == "" ==> tag == DefaultTag
  {
    if reply.Some? && reply.value != "" then reply.value else DefaultTag
  }

  /** `asset_url(filename)`. */
  function AssetUrl(tag: String, filename: String): String
  {
    "https://github.com/indygreg/python-build-standalone/releases/download/" + tag + "/" + filename
  }

  /** The Python map: the first file found for each version, in order of versions found. */
  function PythonUrls(found: seq<(String, String)>, tag: String): seq<(String, String)>
  {
    if |found| == 0 then []
    else
      var urls := PythonUrls(found[..|found| - 1], tag);
      var last := found[|found| - 1];
      if Get(urls, last.0).None? then Put(urls, last.0, AssetUrl(tag, last.1)) else urls
  }

  /** The versions of the Python map are the versions found, each once, in order. */
  lemma {:induction false} PythonKeys(found: seq<(String, String)>, tag: String)
    ensures Keys(PythonUrls(found, tag)) == AppendMissing([], Keys(found))
  {
    if |found| > 0 {
      var init := found[..|found| - 1];
      var last := found[|found| - 1];
      var urls := PythonUrls(init, tag);
      PythonKeys(init, tag);
      assert Keys(found)[..|found| - 1] == Keys(init);
      GetNone(urls, last.0);
      PutKeys(urls, last.0, AssetUrl(tag, last.1));
    }
  }

  /** A version found for the first time at position `i` maps to that file's download address. */
  lemma {:induction false} PythonFirstWins(found: seq<(String, String)>, tag: String, i: nat)
    requires i < |found|
    requires forall j :: 0 <= j < i ==> found[j].0 != found[i].0
    ensures Get(PythonUrls(found, tag), found[i].0) == Some(AssetUrl(tag, found[i].1))
  {
    var init := found[..|found| - 1];
    var last := found[|found| - 1];
    var urls := PythonUrls(init, tag);
    var v := found[i].0;
    if i == |found| - 1 {
      PythonKeys(init, tag);
      AppendMissingProps([], Keys(init));
      assert v !in Keys(init);
      GetNone(urls, v);
      GetPut(urls, v, AssetUrl(tag, last.1), v);
    } else {
      PythonFirstWins(init, tag, i);
      GetPut(urls, last.0, AssetUrl(tag, last.1), v);
    }
  }

  /** The Python loop: a version not yet mapped is mapped to its file and pushed; then sorted. */
  method GatherPython(reply: Option<String>, found: seq<(String, String)>)
    returns (tag: String, list: seq<String>, urls: seq<(String, String)>)
    ensures tag == LatestTag(reply)
    ensures urls == PythonUrls(found, tag)
    ensures list == Newest(Keys(urls))
  {
    tag := DefaultTag;
    if reply.Some? && reply.value != "" {
      tag := reply.value;
    }
    list, urls := [], [];
    for k := 0 to |found|
      invariant urls == PythonUrls(found[..k], tag)
      invariant list == Keys(urls)
    {
      assert found[..k + 1][..k] == found[..k];
      var (version, filename) := found[k];
      if Get(urls, version).None? {
        GetNone(urls, version);
        PutKeys(urls, version, AssetUrl(tag, filename));
        urls := Put(urls, version, AssetUrl(tag, filename));
        list := list + [version];
      }
    }
    assert found[..|found|] == found;
    list := Newest(list);
  }

  /** The releases' assets, one list per release, in order. */
  function Flatten(releases: seq<seq<(String, String)>>): seq<(String, String)>
  {
    if |releases| == 0 then [] else Flatten(releases[..|releases| - 1]) + releases[|releases| - 1]
  }

  /** The versions of the Java map are the versions found, each once, in order. */
  lemma {:induction false} JavaKeys(entries: seq<(String, String)>)
    ensures Keys(Collect(entries)) == AppendMissing([], Keys(entries))
  {
    if |entries| > 0 {
      var init := entries[..|entries| - 1];
      var last := entries[|entries| - 1];
      JavaKeys(init);
      assert Keys(entries)[..|entries| - 1] == Keys(init);
      PutKeys(Collect(init), last.0, last.1);
    }
  }

  /** A version maps to the link of the last asset found for it. */
  lemma {:induction false} JavaLastWins(entries: seq<(String, String)>, i: nat)
    requires i < |entries|
    requires forall j :: i < j < |entries| ==> entries[j].0 != entries[i].0
    ensures Get(Collect(entries), entries[i].0) == Some(entries[i].1)
  {
    var init := entries[..|entries| - 1];
    var last := entries[|entries| - 1];
    GetPut(Collect(init), last.0, last.1, entries[i].0);
    if i < |entries| - 1 {
      JavaLastWins(init, i);
    }
  }

  lemma FlattenNext(releases: seq<seq<(String, String)>>, r: nat)
    requires r < |releases|
    ensures Flatten(releases[..r + 1]) == Flatten(releases[..r]) + releases[r]
  {
    assert releases[..r + 1][..r] == releases[..r];
  }

  lemma CollectNext(before: seq<(String, String)>, assets: seq<(String, String)>, a: nat)
    requires a < |assets|
    ensures Collect(before + assets[..a + 1]) == Put(Collect(before + assets[..a]), assets[a].0, assets[a].1)
  {
    var xs := before + assets[..a + 1];
    assert xs[..|xs| - 1] == before + assets[..a];
    assert xs[|xs| - 1] == assets[a];
  }

  /** The Java loops: every asset of every release assigns its version's link; then sorted. */
  method GatherJava(releases: seq<seq<(String, String)>>) returns (list: seq<String>, links: seq<(String, String)>)
    ensures links == Collect(Flatten(releases))
    ensures list == Newest(Keys(links))
  {
    links := [];
    for r := 0 to |releases|
      invariant links == Collect(Flatten(releases[..r]))
    {
      var assets := releases[r];
      ghost var before := Flatten(releases[..r]);
      assert before + assets[..0] == before;
      for a := 0 to |assets|
        invariant links == Collect(before + assets[..a])
      {
        CollectNext(before, assets, a);
        links := Put(links, assets[a].0, assets[a].1);
      }
      assert assets[..|assets|] == assets;
      FlattenNext(releases, r);
    }
    assert releases[..|releases|] == releases;
    list := Newest(Keys(links));
  }

  /** What `initUtils` writes to `metadata.json`. */
  datatype Metadata = Metadata(
    ruby: seq<String>, python: seq<String>, java: seq<String>,
    pythonUrls: seq<(String, String)>, javaLinks: seq<(String, String)>)

  /**
   * `initUtils`, given what each request answered (`None` for a request that failed): a failed
   * Ruby or Python index leaves that list empty; a failed tag or Java request rejects the whole
   * run, and nothing is written.
   */
  method InitUtils(ruby: Option<seq<String>>, tagReply: Option<Option<String>>,
                   python: Option<seq<(String, String)>>, java: Option<seq<seq<(String, String)>>>)
    returns (r: Option<Metadata>)
    ensures tagReply.None? || java.None? <==> r.None?
    ensures r.Some? ==>
              r.value.ruby == (if ruby.Some? then Newest(AppendMissing([], ruby.value)) else [])
              && r.value.pythonUrls == (if python.Some? then PythonUrls(python.value, LatestTag(tagReply.value)) else [])
              && r.value.python == (if python.Some? then Newest(Keys(r.value.pythonUrls)) else [])
              && r.value.javaLinks == Collect(Flatten(java.value))
              && r.value.java == Newest(Keys(r.value.javaLinks))
  {
    var rubyList: seq<String> := [];
    if ruby.Some? {
      rubyList := GatherRuby(ruby.value);
    }
    if tagReply.None? {
      return None;
    }
    var pythonList: seq<String>, urls: seq<(String, String)> := [], [];
    if python.Some? {
      var _, l, u := GatherPython(tagReply.value, python.value);
      pythonList, urls := l, u;
    }
    if java.None? {
      return None;
    }
    var javaList, links := GatherJava(java.value);
    return Some(Metadata(rubyList, pythonList, javaList, urls, links));
  }
}
