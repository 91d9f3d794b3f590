/** Failure-compatible wrappers and small sequence helpers shared by every module. */
module Base {

  /** A value that may be missing: JavaScript's `undefined`/`null`, Go's `nil`. */
  datatype Option<T> = None | Some(value: T)
  {
    function GetOr(default: T): T
    {
      match this
      case Some(v) => v
      case None => default
    }
  }

  /** The outcome of an operation that may throw (JavaScript) or return an error (Go). */
  datatype Result<T> = Ok(value: T) | Err(error: string)
  {
    predicate IsFailure() { Err? }

    function PropagateFailure<U>(): Result<U>
      requires Err?
    {
      Err(error)
    }

    function Extract(): T
      requires Ok?
    {
      value
    }
  }

  /** The elements of `s` that satisfy `p`, in order (JavaScript's `Array.prototype.filter`). */
  function Filter<T>(s: seq<T>, p: T -> bool): (r: seq<T>)
    ensures |r| <= |s|
  {
    if |s| == 0 then []
    else if p(s[0]) then [s[0]] + Filter(s[1..], p)
    else Filter(s[1..], p)
  }

  /** The filter keeps exactly the elements that satisfy the predicate. */
  lemma {:induction false} FilterMembers<T>(s: seq<T>, p: T -> bool, x: T)
    ensures x in Filter(s, p) <==> x in s && p(x)
  {
    if |s| > 0 {
      FilterMembers(s[1..], p, x);
      assert s == [s[0]] + s[1..];
    }
  }

  lemma FilterAllKept<T(!new)>(s: seq<T>, p: T -> bool)
    requires forall x :: x in s ==> p(x)
    ensures Filter(s, p) == s
  {
    if |s| > 0 {
      FilterAllKept(s[1..], p);
    }
  }

  lemma FilterNoneKept<T(!new)>(s: seq<T>, p: T -> bool)
    requires forall x :: x in s ==> !p(x)
    ensures Filter(s, p) == []
  {
    if |s| > 0 {
      FilterNoneKept(s[1..], p);
    }
  }

  /** A filter that refuses one element keeps fewer than all of them. */
  lemma {:induction false} FilterShorter<T>(s: seq<T>, p: T -> bool, j: nat)
    requires j < |s| && !p(s[j])
    ensures |Filter(s, p)| < |s|
  {
    if j > 0 {
      FilterShorter(s[1..], p, j - 1);
    }
  }

  lemma FilterAppend<T(!new)>(s: seq<T>, t: seq<T>, p: T -> bool)
    ensures Filter(s + t, p) == Filter(s, p) + Filter(t, p)
  {
    if |s| == 0 {
      assert s + t == t;
    } else {
      assert (s + t)[1..] == s[1..] + t;
      FilterAppend(s[1..], t, p);
    }
  }

  /** The index of the first element satisfying `p`, or -1 (JavaScript's `findIndex`). */
  function FindIndex<T(!new)>(s: seq<T>, p: T -> bool): (i: int)
    ensures -1 <= i < |s|
    ensures i == -1 <==> forall x :: x in s ==> !p(x)
    ensures 0 <= i ==> p(s[i]) && forall j :: 0 <= j < i ==> !p(s[j])
  {
    if |s| == 0 then -1
    else if p(s[0]) then 0
    else
      var k := FindIndex(s[1..], p);
      if k == -1 then -1 else k + 1
  }

  /** A sequence from `i` on is its element at `i` followed by the rest. */
  lemma ConsAt<T>(s: seq<T>, i: nat)
    requires i < |s|
    ensures s[i..] == [s[i]] + s[i + 1..]
  {
  }

  /** `s` with the element at index `i` removed (JavaScript's `splice(i, 1)`). */
  function RemoveAt<T>(s: seq<T>, i: nat): (r: seq<T>)
    requires i < |s|
    ensures |r| == |s| - 1
  {
    s[..i] + s[i + 1..]
  }

  /** `s` with `x` inserted before index `i` (JavaScript's `splice(i, 0, x)`). */
  function InsertAt<T>(s: seq<T>, i: nat, x: T): (r: seq<T>)
    requires i <= |s|
    ensures |r| == |s| + 1
  {
    s[..i] + [x] + s[i..]
  }

  /**
   * `list` extended by every element of `items` that it does not already hold, in the order of
   * `items`; an item repeated in `items` is appended once. This is the shape of a loop that
   * pushes `x` when `list.findIndex(y => y == x) == -1`.
   */
  function AppendMissing<T(==)>(list: seq<T>, items: seq<T>): seq<T>
    decreases |items|
  {
    if |items| == 0 then list
    else
      var last := items[|items| - 1];
      var before := AppendMissing(list, items[..|items| - 1]);
      if last in before then before else before + [last]
  }

  lemma {:induction false} AppendMissingProps<T(!new)>(list: seq<T>, items: seq<T>)
    ensures var r := AppendMissing(list, items);
      |list| <= |r| && r[..|list|] == list
      && (forall x :: x in r <==> x in list || x in items)
      && (forall i, j :: |list| <= i < j < |r| ==> r[i] != r[j])
      && (forall i :: |list| <= i < |r| ==> r[i] !in list)
    decreases |items|
  {
    if |items| > 0 {
      var before := AppendMissing(list, items[..|items| - 1]);
      AppendMissingProps(list, items[..|items| - 1]);
      assert items == items[..|items| - 1] + [items[|items| - 1]];
      var r := AppendMissing(list, items);
      if items[|items| - 1] !in before {
        assert r == before + [items[|items| - 1]];
        assert r[..|list|] == before[..|list|];
      }
    }
  }

  /** Nothing is appended when every item is already in the list. */
  lemma {:induction false} AppendMissingNone<T>(list: seq<T>, items: seq<T>)
    requires forall x :: x in items ==> x in list
    ensures AppendMissing(list, items) == list
    decreases |items|
  {
    if |items| > 0 {
      assert items[|items| - 1] in items;
      assert forall x :: x in items[..|items| - 1] ==> x in items;
      AppendMissingNone(list, items[..|items| - 1]);
    }
  }

  /**
   * `s` without its first occurrence of `x` (`s.splice(s.indexOf(x), 1)` guarded by the index
   * being found); `s` itself when `x` does not occur.
   */
  function RemoveFirst<T(==)>(s: seq<T>, x: T): (r: seq<T>)
    ensures x !in s ==> r == s
    ensures x in s ==> exists i :: 0 <= i < |s| && s[i] == x && x !in s[..i] && r == s[..i] + s[i + 1..]
  {
    if |s| == 0 then s
    else if s[0] == x then
      assert s[..0] == [];
      s[1..]
    else
      var rest := RemoveFirst(s[1..], x);
      RemoveFirstShift(s, x, rest);
      [s[0]] + rest
  }

  /** The witness for the tail, moved one place right, is the witness for the whole sequence. */
  lemma RemoveFirstShift<T>(s: seq<T>, x: T, rest: seq<T>)
    requires |s| > 0 && s[0] != x
    requires x in s[1..] ==>
               exists i :: 0 <= i < |s| - 1 && s[1..][i] == x && x !in s[1..][..i] && rest == s[1..][..i] + s[1..][i + 1..]
    ensures x in s ==> exists i :: 0 <= i < |s| && s[i] == x && x !in s[..i] && [s[0]] + rest == s[..i] + s[i + 1..]
  {
    if x in s {
      assert x in s[1..];
      var i :| 0 <= i < |s| - 1 && s[1..][i] == x && x !in s[1..][..i] && rest == s[1..][..i] + s[1..][i + 1..];
      ShiftAt(s, x, rest, i);
    }
  }

  lemma ShiftAt<T>(s: seq<T>, x: T, rest: seq<T>, i: nat)
    requires |s| > 0 && s[0] != x
    requires i < |s| - 1 && s[1..][i] == x && x !in s[1..][..i] && rest == s[1..][..i] + s[1..][i + 1..]
    ensures i + 1 < |s| && s[i + 1] == x && x !in s[..i + 1] && [s[0]] + rest == s[..i + 1] + s[i + 2..]
  {
    assert s[..i + 1] == [s[0]] + s[1..][..i];
    assert s[i + 2..] == s[1..][i + 1..];
  }

  /** `RemoveFirst` takes exactly one copy of `x` out of the multiset, when there is one. */
  lemma {:induction false} RemoveFirstMultiset<T>(s: seq<T>, x: T)
    ensures multiset(RemoveFirst(s, x)) == multiset(s) - multiset{x}
  {
    if |s| > 0 {
      assert s == [s[0]] + s[1..];
      assert multiset(s) == multiset{s[0]} + multiset(s[1..]);
      if s[0] != x {
        RemoveFirstMultiset(s[1..], x);
        var rest := RemoveFirst(s[1..], x);
        assert RemoveFirst(s, x) == [s[0]] + rest;
        assert multiset([s[0]] + rest) == multiset{s[0]} + multiset(rest);
      }
    }
  }

  /** The occurrence `RemoveFirst` drops is the first one. */
  lemma RemoveFirstAt<T>(s: seq<T>, x: T, i: nat)
    requires i < |s| && s[i] == x && x !in s[..i]
    ensures RemoveFirst(s, x) == s[..i] + s[i + 1..]
  {
    assert s[..i + 1][i] == x;
  }

  /** Removing an element appended to a sequence that lacks it gives the sequence back. */
  lemma {:induction false} RemoveFirstAppended<T>(s: seq<T>, x: T)
    requires x !in s
    ensures RemoveFirst(s + [x], x) == s
  {
    if |s| > 0 {
      assert (s + [x])[1..] == s[1..] + [x];
      RemoveFirstAppended(s[1..], x);
      assert [s[0]] + s[1..] == s;
    }
  }

  /** The elements of `s` in reverse order. */
  function Reverse<T>(s: seq<T>): (r: seq<T>)
    ensures |r| == |s|
  {
    if |s| == 0 then [] else Reverse(s[1..]) + [s[0]]
  }

  lemma {:induction false} ReverseAt<T>(s: seq<T>, k: nat)
    requires k < |s|
    ensures Reverse(s)[k] == s[|s| - 1 - k]
  {
    if k < |s| - 1 {
      ReverseAt(s[1..], k);
    }
  }

  lemma {:induction false} ReverseMultiset<T>(s: seq<T>)
    ensures multiset(Reverse(s)) == multiset(s)
  {
    if |s| > 0 {
      ReverseMultiset(s[1..]);
      assert s == [s[0]] + s[1..];
    }
  }

  /** `s.map(f)`. */
  function MapSeq<T, U>(s: seq<T>, f: T -> U): (r: seq<U>)
    ensures |r| == |s|
    ensures forall i :: 0 <= i < |s| ==> r[i] == f(s[i])
  {
    if |s| == 0 then [] else [f(s[0])] + MapSeq(s[1..], f)
  }

  /** Mapping distributes over concatenation. */
  lemma MapSeqConcat<T, U>(a: seq<T>, b: seq<T>, f: T -> U)
    ensures MapSeq(a + b, f) == MapSeq(a, f) + MapSeq(b, f)
  {
    var l, r := MapSeq(a + b, f), MapSeq(a, f) + MapSeq(b, f);
    assert forall i :: 0 <= i < |l| ==> l[i] == r[i];
  }

  /** Mapping a sequence with one element taken out gives the mapped sequence less that element's image. */
  lemma MapSeqRemove<T, U>(q: seq<T>, i: nat, f: T -> U)
    requires i < |q|
    ensures multiset(MapSeq(q, f)) == multiset{f(q[i])} + multiset(MapSeq(q[..i] + q[i + 1..], f))
  {
    var a, b := q[..i], q[i + 1..];
    assert q == a + ([q[i]] + b);
    MapSeqConcat(a, [q[i]] + b, f);
    MapSeqConcat([q[i]], b, f);
    MapSeqConcat(a, b, f);
    MultisetThree(MapSeq(a, f), f(q[i]), MapSeq(b, f));
  }

  lemma MultisetThree<T>(a: seq<T>, x: T, b: seq<T>)
    ensures multiset(a + ([x] + b)) == multiset{x} + multiset(a + b)
  {
  }

  /** Mapping two sequences that hold the same elements gives sequences that hold the same elements. */
  lemma {:induction false} MultisetMap<T, U>(p: seq<T>, q: seq<T>, f: T -> U)
    requires multiset(p) == multiset(q)
    ensures multiset(MapSeq(p, f)) == multiset(MapSeq(q, f))
    decreases |p|
  {
    if |p| > 0 {
      var x := p[0];
      assert x in multiset(q);
      var i := RemovedAt(q, x);
      TailMultiset(p);
      MultisetMap(p[1..], q[..i] + q[i + 1..], f);
      MapSeqRemove(q, i, f);
      MapSeqRemove(p, 0, f);
      assert p[..0] + p[1..] == p[1..];
    }
  }

  /** Where `RemoveFirst` takes `x` out, and what is left. */
  lemma RemovedAt<T>(q: seq<T>, x: T) returns (i: nat)
    requires x in q
    ensures i < |q| && q[i] == x && multiset(q[..i] + q[i + 1..]) == multiset(q) - multiset{x}
  {
    RemoveFirstMultiset(q, x);
    i :| 0 <= i < |q| && q[i] == x && x !in q[..i] && RemoveFirst(q, x) == q[..i] + q[i + 1..];
  }

  lemma TailMultiset<T>(p: seq<T>)
    requires |p| > 0
    ensures multiset(p[1..]) == multiset(p) - multiset{p[0]}
  {
    assert p == [p[0]] + p[1..];
  }

  /*
   * A JavaScript plain object is an ordered list of (key, value) entries: assignment to a new key
   * appends an entry, assignment to an existing key replaces its value where it stands.
   */

  function Keys<V>(m: seq<(seq<char>, V)>): (r: seq<seq<char>>)
    ensures |r| == |m|
    ensures forall i :: 0 <= i < |m| ==> r[i] == m[i].0
  {
    MapSeq(m, (e: (seq<char>, V)) => e.0)
  }

  predicate DistinctKeys<V>(m: seq<(seq<char>, V)>)
  {
    forall i, j :: 0 <= i < j < |m| ==> m[i].0 != m[j].0
  }

  /** `obj[k]`, `None` standing for `undefined`. */
  function Get<V>(m: seq<(seq<char>, V)>, k: seq<char>): Option<V>
  {
    if |m| == 0 then None
    else if m[0].0 == k then Some(m[0].1)
    else Get(m[1..], k)
  }

  /** `obj[k] = v`. */
  function Put<V>(m: seq<(seq<char>, V)>, k: seq<char>, v: V): seq<(seq<char>, V)>
  {
    if |m| == 0 then [(k, v)]
    else if m[0].0 == k then [(k, v)] + m[1..]
    else [m[0]] + Put(m[1..], k, v)
  }

  /** Assignment keeps the keys in place and appends a new key at the end. */
  lemma {:induction false} PutKeys<V>(m: seq<(seq<char>, V)>, k: seq<char>, v: V)
    ensures Keys(Put(m, k, v)) == if k in Keys(m) then Keys(m) else Keys(m) + [k]
  {
    if |m| > 0 && m[0].0 != k {
      PutKeys(m[1..], k, v);
      assert Keys(m) == [m[0].0] + Keys(m[1..]);
      assert Keys([m[0]] + Put(m[1..], k, v)) == [m[0].0] + Keys(Put(m[1..], k, v));
    } else if |m| > 0 {
      assert Keys(m) == [k] + Keys(m[1..]);
      assert Keys([(k, v)] + m[1..]) == [k] + Keys(m[1..]);
    }
  }

  /** After `obj[k] = v`, reading `k` gives `v` and every other key reads as before. */
  lemma {:induction false} GetPut<V>(m: seq<(seq<char>, V)>, k: seq<char>, v: V, k': seq<char>)
    ensures Get(Put(m, k, v), k') == if k' == k then Some(v) else Get(m, k')
  {
    if |m| > 0 && m[0].0 != k {
      GetPut(m[1..], k, v, k');
    }
  }

  /** A key reads as `undefined` exactly when the object does not hold it. */
  lemma {:induction false} GetNone<V>(m: seq<(seq<char>, V)>, k: seq<char>)
    ensures Get(m, k).None? <==> k !in Keys(m)
  {
    if |m| > 0 {
      GetNone(m[1..], k);
      assert Keys(m) == [m[0].0] + Keys(m[1..]);
    }
  }

  /** Assigning a key the object does not hold appends one entry. */
  lemma {:induction false} PutFresh<V>(m: seq<(seq<char>, V)>, k: seq<char>, v: V)
    requires forall i :: 0 <= i < |m| ==> m[i].0 != k
    ensures Put(m, k, v) == m + [(k, v)]
  {
    if |m| > 0 {
      PutFresh(m[1..], k, v);
      assert m == [m[0]] + m[1..];
    }
  }

  /** Assigning a key the value it already reads as changes nothing. */
  lemma {:induction false} PutSame<V>(m: seq<(seq<char>, V)>, k: seq<char>, v: V)
    requires Get(m, k) == Some(v)
    ensures Put(m, k, v) == m
  {
    if m[0].0 != k {
      PutSame(m[1..], k, v);
      assert [m[0]] + m[1..] == m;
    } else {
      assert [(k, v)] + m[1..] == m;
    }
  }

  /** A second assignment to a key replaces the first. */
  lemma {:induction false} PutTwice<V>(m: seq<(seq<char>, V)>, k: seq<char>, v1: V, v2: V)
    ensures Put(Put(m, k, v1), k, v2) == Put(m, k, v2)
  {
    if |m| > 0 && m[0].0 != k {
      PutTwice(m[1..], k, v1, v2);
    }
  }

  /** Every entry after an assignment is an entry from before or the assigned one. */
  lemma {:induction false} PutEntries<V>(m: seq<(seq<char>, V)>, k: seq<char>, v: V, i: nat)
    requires i < |Put(m, k, v)|
    ensures Put(m, k, v)[i] == (k, v) || (i < |m| && Put(m, k, v)[i] == m[i])
  {
    if |m| > 0 && m[0].0 != k && i > 0 {
      PutEntries(m[1..], k, v, i - 1);
    }
  }

  /** Assignment to a key the object holds keeps its keys distinct. */
  lemma PutDistinct<V>(m: seq<(seq<char>, V)>, k: seq<char>, v: V)
    requires DistinctKeys(m)
    ensures DistinctKeys(Put(m, k, v))
  {
    PutKeys(m, k, v);
    var r := Put(m, k, v);
    if k !in Keys(m) {
      forall i | 0 <= i < |m|
        ensures Keys(m)[i] != k
      {
      }
    }
    assert forall i :: 0 <= i < |r| ==> r[i].0 == Keys(r)[i];
  }

  /** `entries.reduce((obj, [k, v]) => { obj[k] = v; return obj }, {})`. */
  function Collect<V>(entries: seq<(seq<char>, V)>): seq<(seq<char>, V)>
  {
    if |entries| == 0 then []
    else
      var last := entries[|entries| - 1];
      Put(Collect(entries[..|entries| - 1]), last.0, last.1)
  }

  /** Collecting entries whose keys are distinct gives them back in order. */
  lemma {:induction false} CollectDistinct<V>(entries: seq<(seq<char>, V)>)
    requires DistinctKeys(entries)
    ensures Collect(entries) == entries
  {
    if |entries| > 0 {
      var init := entries[..|entries| - 1];
      CollectDistinct(init);
      PutFresh(init, entries[|entries| - 1].0, entries[|entries| - 1].1);
      assert init + [entries[|entries| - 1]] == entries;
    }
  }
}
