/**
 * The line-list helpers of `src/helpers/iptables.js` and `src/helpers/nftables.js`.
 *
 * Both files hold a firewall configuration as a list of text lines and a user's rule as a
 * "record": the list of line variants that count as that user's rule (the first is the one to
 * write). `deleteIfRecordExist` removes the first line equal to any variant; the two
 * `appendIfRecordNotExist` functions add the first variant when no variant is present, the
 * iptables one just before the last line (the table's `COMMIT`), the nftables one at the end.
 * Each edits the caller's list in place and reports whether it changed anything.
 */
module RuleLines {
  import opened Base
  import opened Strings

  /** `x => record.includes(x)`. */
  function InRecord(record: seq<String>): String -> bool
  {
    (x: String) => x in record
  }

  /** Some line of the list is one of the record's variants. */
  predicate HasRecord(lines: seq<String>, record: seq<String>)
  {
    exists i :: 0 <= i < |lines| && lines[i] in record
  }

  /** `arr.findIndex(x => record.includes(x))` finds the first line that is a variant, or -1. */
  lemma RecordIndex(lines: seq<String>, record: seq<String>)
    ensures var i := FindIndex(lines, InRecord(record));
      (i == -1 <==> !HasRecord(lines, record))
      && (0 <= i ==> lines[i] in record && forall j :: 0 <= j < i ==> lines[j] !in record)
  {
    var p := InRecord(record);
    assert forall x :: p(x) == (x in record);
  }

  /** The list after `deleteIfRecordExist`, and what it returns. */
  function AfterDelete(lines: seq<String>, record: seq<String>): (r: (seq<String>, bool))
    ensures r.1 <==> HasRecord(lines, record)
    ensures !r.1 ==> r.0 == lines
    ensures r.1 ==> exists i :: (0 <= i < |lines| && lines[i] in record
      && (forall j :: 0 <= j < i ==> lines[j] !in record)
      && r.0 == lines[..i] + lines[i + 1..]
      && multiset(r.0) + multiset{lines[i]} == multiset(lines))
  {
    var idx := FindIndex(lines, InRecord(record));
    RecordIndex(lines, record);
    if idx == -1 then (lines, false)
    else
      assert lines == lines[..idx] + [lines[idx]] + lines[idx + 1..];
      (RemoveAt(lines, idx), true)
  }

  /**
   * Where the iptables helper inserts: `splice(arr.length - 1, 0, x)`, which on an empty list
   * (start -1, counted from the end and clamped to 0) inserts at 0.
   */
  function BeforeLast(n: nat): (i: nat)
    ensures i <= n
    ensures n > 0 ==> i == n - 1
  {
    if n == 0 then 0 else n - 1
  }

  /** The list after the iptables `appendIfRecordNotExist`, and what it returns. */
  function AfterInsertBeforeLast(lines: seq<String>, record: seq<String>): (r: (seq<String>, bool))
    requires |record| > 0
    ensures r.1 <==> !HasRecord(lines, record)
    ensures !r.1 ==> r.0 == lines
    ensures r.1 ==> (|r.0| == |lines| + 1 && r.0[BeforeLast(|lines|)] == record[0]
      && RemoveAt(r.0, BeforeLast(|lines|)) == lines)
  {
    RecordIndex(lines, record);
    if FindIndex(lines, InRecord(record)) == -1 then
      var k := BeforeLast(|lines|);
      var r := InsertAt(lines, k, record[0]);
      assert r[..k] == lines[..k] && r[k + 1..] == lines[k..];
      assert lines == lines[..k] + lines[k..];
      (r, true)
    else (lines, false)
  }

  /** The list after the nftables `appendIfRecordNotExist`, and what it returns. */
  function AfterPush(lines: seq<String>, record: seq<String>): (r: (seq<String>, bool))
    requires |record| > 0
    ensures r.1 <==> !HasRecord(lines, record)
    ensures !r.1 ==> r.0 == lines
    ensures r.1 ==> r.0 == lines + [record[0]]
  {
    RecordIndex(lines, record);
    if FindIndex(lines, InRecord(record)) == -1 then (lines + [record[0]], true) else (lines, false)
  }

  /** A configuration's line list, shared by reference as a JavaScript array is. */
  class RuleList {
    var lines: seq<String>

    constructor (lines: seq<String>)
      ensures this.lines == lines
    {
      this.lines := lines;
    }

    /** `deleteIfRecordExist(arr, record)`. */
    method DeleteIfRecordExist(record: seq<String>) returns (changed: bool)
      modifies this
      ensures (lines, changed) == AfterDelete(old(lines), record)
    {
      var idx := FindIndex(lines, InRecord(record));
      if idx == -1 {
        return false;
      }
      lines := RemoveAt(lines, idx);
      return true;
    }

    /** `appendIfRecordNotExist(arr, record)` of the iptables helpers. */
    method InsertIfRecordNotExist(record: seq<String>) returns (changed: bool)
      requires |record| > 0
      modifies this
      ensures (lines, changed) == AfterInsertBeforeLast(old(lines), record)
    {
      var idx := FindIndex(lines, InRecord(record));
      if idx == -1 {
        lines := InsertAt(lines, BeforeLast(|lines|), record[0]);
        return true;
      }
      return false;
    }

    /** `appendIfRecordNotExist(arr, record)` of the nftables helpers. */
    method PushIfRecordNotExist(record: seq<String>) returns (changed: bool)
      requires |record| > 0
      modifies this
      ensures (lines, changed) == AfterPush(old(lines), record)
    {
      var idx := FindIndex(lines, InRecord(record));
      if idx == -1 {
        lines := lines + [record[0]];
        return true;
      }
      return false;
    }
  }

  /** Pushing a rule the list lacks and then deleting it gives the list back. */
  lemma PushThenDelete(lines: seq<String>, record: seq<String>)
    requires |record| > 0 && !HasRecord(lines, record)
    ensures AfterDelete(AfterPush(lines, record).0, record) == (lines, true)
  {
    var pushed := lines + [record[0]];
    RecordIndex(lines, record);
    RecordIndex(pushed, record);
    assert forall j :: 0 <= j < |lines| ==> pushed[j] !in record;
    assert pushed[|lines|] in record;
    assert FindIndex(pushed, InRecord(record)) == |lines|;
    assert AfterPush(lines, record).0 == pushed;
    assert RemoveAt(pushed, |lines|) == lines;
  }

  /** Inserting a rule the list lacks before its last line and then deleting it gives the list back. */
  lemma InsertThenDelete(lines: seq<String>, record: seq<String>)
    requires |record| > 0 && !HasRecord(lines, record)
    ensures AfterDelete(AfterInsertBeforeLast(lines, record).0, record) == (lines, true)
  {
    var k := BeforeLast(|lines|);
    var inserted := AfterInsertBeforeLast(lines, record).0;
    assert RemoveAt(inserted, k) == lines;
    forall j | 0 <= j < k
      ensures inserted[j] !in record
    {
      assert inserted[j] == RemoveAt(inserted, k)[j];
    }
    DeleteFirstAt(inserted, record, k);
  }

  /** Deleting where the first variant stands. */
  lemma DeleteFirstAt(lines: seq<String>, record: seq<String>, i: nat)
    requires i < |lines| && lines[i] in record
    requires forall j :: 0 <= j < i ==> lines[j] !in record
    ensures AfterDelete(lines, record) == (RemoveAt(lines, i), true)
  {
    RecordIndex(lines, record);
    var p := InRecord(record);
    assert p(lines[i]);
    assert lines[i] in lines;
    assert FindIndex(lines, p) == i;
  }

  /** A second append of the same record changes nothing and reports so. */
  lemma PushIdempotent(lines: seq<String>, record: seq<String>)
    requires |record| > 0
    ensures var once := AfterPush(lines, record).0;
      AfterPush(once, record) == (once, false)
  {
    var once := AfterPush(lines, record).0;
    if !HasRecord(lines, record) {
      assert once[|lines|] == record[0];
    }
    assert HasRecord(once, record);
  }

  lemma InsertIdempotent(lines: seq<String>, record: seq<String>)
    requires |record| > 0
    ensures var once := AfterInsertBeforeLast(lines, record).0;
      AfterInsertBeforeLast(once, record) == (once, false)
  {
    var once := AfterInsertBeforeLast(lines, record).0;
    if !HasRecord(lines, record) {
      assert once[BeforeLast(|lines|)] == record[0];
    }
    assert HasRecord(once, record);
  }
}
