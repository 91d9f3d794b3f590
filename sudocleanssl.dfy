/**
 * The renewal cleaner (sudocleanssl.js): for every domain in active Let's Encrypt renewal whose
 * certificate has expired or expires within 30 days and was last issued more than a day ago, the
 * `letsencrypt_renew=1` line is dropped from the domain's Virtualmin file, so that a renewal that
 * keeps failing stops being retried.
 *
 * The outputs of the Virtualmin listings, the pattern that reads an expiry row (an extractor),
 * `Date.parse`, `Date.now()` and the domain files (a map from path to content) are parameters.
 */
module Sudocleanssl {
  import opened Base
  import opened Strings
  import opened Patterns

  /** A row of `virtualmin list-certs-expiry`: domain, certificate path, valid until, expires in, status. */
  datatype Row = Row(domain: String, path: String, validUntil: String, expiresIn: String, status: String)

  /** What the script reads from the host besides the listings. */
  datatype Host = Host(detail: String -> String, parse: String -> Option<int>, now: int)

  // ---------------------------------------------------------------------------------------------
  // The listings
  // ---------------------------------------------------------------------------------------------

  /** The lines the expiry pattern reads as rows, in order; the others are dropped. */
  function Matched(lines: seq<String>, extract: String -> Option<Row>): seq<Row>
  {
    if |lines| == 0 then []
    else
      var row := extract(lines[0]);
      (if row.Some? then [row.value] else []) + Matched(lines[1..], extract)
  }

  /** `cmd(...).split('\n').slice(5).map(x => re.exec(x)).filter(x => x)`. */
  function Rows(output: String, extract: String -> Option<Row>): seq<Row>
  {
    var lines := Split(Trim(output), '\n');
    Matched(if |lines| <= 5 then [] else lines[5..], extract)
  }

  lemma {:induction false} MatchedMembers(lines: seq<String>, extract: String -> Option<Row>, row: Row)
    ensures row in Matched(lines, extract) <==> exists line :: line in lines && extract(line) == Some(row)
  {
    if |lines| > 0 {
      MatchedMembers(lines[1..], extract, row);
      assert lines == [lines[0]] + lines[1..];
    }
  }

  /** The rows are read from the sixth line of the listing on: the five header lines never count. */
  lemma RowsFromSixthLine(output: String, extract: String -> Option<Row>, row: Row)
    ensures var lines := Split(Trim(output), '\n');
            row in Rows(output, extract) <==> exists i :: 5 <= i < |lines| && extract(lines[i]) == Some(row)
  {
    var lines := Split(Trim(output), '\n');
    var body := if |lines| <= 5 then [] else lines[5..];
    MatchedMembers(body, extract, row);
    if exists line :: line in body && extract(line) == Some(row) {
      var line :| line in body && extract(line) == Some(row);
      var i := LineAfterHeader(lines, line);
    }
    if exists i :: 5 <= i < |lines| && extract(lines[i]) == Some(row) {
      var i :| 5 <= i < |lines| && extract(lines[i]) == Some(row);
      LineInBody(lines, i);
    }
  }

  /** A line past the five header lines is at some index from 5 on. */
  lemma LineAfterHeader(lines: seq<String>, line: String) returns (i: nat)
    requires line in (if |lines| <= 5 then [] else lines[5..])
    ensures 5 <= i < |lines| && lines[i] == line
  {
    var body := lines[5..];
    var j :| 0 <= j < |body| && body[j] == line;
    i := j + 5;
  }

  /** The line at an index from 5 on is past the five header lines. */
  lemma LineInBody(lines: seq<String>, i: nat)
    requires 5 <= i < |lines|
    ensures lines[i] in (if |lines| <= 5 then [] else lines[5..])
  {
    assert lines[5..][i - 5] == lines[i];
  }

  /** `listCertsExpiry.find(x => x[1] == domain)`. */
  function FindRow(rows: seq<Row>, domain: String): (r: Option<Row>)
    ensures r.Some? ==> r.value in rows && r.value.domain == domain
    ensures r.None? <==> forall row :: row in rows ==> row.domain != domain
  {
    if |rows| == 0 then None
    else if rows[0].domain == domain then Some(rows[0])
    else
      assert rows == [rows[0]] + rows[1..];
      FindRow(rows[1..], domain)
  }

  /**
   * Expired, or expiring in fewer than 30 days (`parseInt` of the column without a radix, so a
   * "0x" lead reads hexadecimal; NaN fails the test).
   */
  predicate Due(row: Row)
  {
    row.status == "EXPIRED"
    || (Contains(row.expiresIn, " day") && ParseIntAuto(row.expiresIn).Some? && ParseIntAuto(row.expiresIn).value < 30)
  }

  const IssuedLead: String := "Lets Encrypt cert issued: "
  const FileLead: String := "File: "
  const DayMs: int := 86400000
  const RenewFlag: String := "\nletsencrypt_renew=1"

  /**
   * The domain file whose renewal is dropped for `domain`: the domain has an expiry row that is
   * due, its details name both the last issue date and the file, the date parses, and more than a
   * day has passed since.
   */
  function Target(domain: String, rows: seq<Row>, host: Host): Option<String>
  {
    var row := FindRow(rows, domain);
    if row.None? || !Due(row.value) then None
    else
      var text := host.detail(domain);
      var issued := Capture(text, IssuedLead, AnyChar, None);
      var file := Capture(text, FileLead, AnyChar, None);
      if issued.None? || file.None? then None
      else
        var t := host.parse(issued.value);
        if t.Some? && host.now - t.value > DayMs then file else None
  }

  /** A renewal domain without an expiry row is skipped. */
  lemma NoRowNoTarget(domain: String, rows: seq<Row>, host: Host)
    requires forall row :: row in rows ==> row.domain != domain
    ensures Target(domain, rows, host).None?
  {
  }

  /**
   * A domain is a target only when its first expiry row is due, its details name an issue date
   * that parses to more than a day ago, and the target is the file its details name.
   */
  lemma TargetOnlyWhen(domain: String, rows: seq<Row>, host: Host)
    requires Target(domain, rows, host).Some?
    ensures var row := FindRow(rows, domain);
            var text := host.detail(domain);
            var issued := Capture(text, IssuedLead, AnyChar, None);
            row.Some? && row.value in rows && row.value.domain == domain && Due(row.value)
            && issued.Some? && host.parse(issued.value).Some?
            && host.now - host.parse(issued.value).value > DayMs
            && Target(domain, rows, host) == Capture(text, FileLead, AnyChar, None)
  {
  }

  /**
   * A due certificate whose details read `Lets Encrypt cert issued: <date>` and, further on,
   * `File: <path>` (each lead there for the first time), the date more than a day old, has that
   * path as its target.
   */
  lemma TargetWhen(domain: String, rows: seq<Row>, host: Host, pre: String, date: String, mid: String, path: String, post: String)
    requires FindRow(rows, domain).Some? && Due(FindRow(rows, domain).value)
    requires host.detail(domain) == pre + IssuedLead + date + ['\n'] + mid + FileLead + path + ['\n'] + post
    requires !Contains(pre + IssuedLead[..|IssuedLead| - 1], IssuedLead)
    requires !Contains(pre + IssuedLead + date + ['\n'] + mid + FileLead[..|FileLead| - 1], FileLead)
    requires |date| > 0 && AllAny(date) && |path| > 0 && AllAny(path)
    requires host.parse(date).Some? && host.now - host.parse(date).value > DayMs
    ensures Target(domain, rows, host) == Some(path)
  {
    var text := host.detail(domain);
    Regroup(pre, IssuedLead, date, mid, FileLead, path, post);
    CaptureLine(pre, IssuedLead, date, mid + FileLead + path + ['\n'] + post);
    CaptureLine(pre + IssuedLead + date + ['\n'] + mid, FileLead, path, post);
  }

  /** The two ways the details text is read: from the first lead, and from the second. */
  lemma Regroup(a: String, b: String, c: String, d: String, e: String, f: String, g: String)
    ensures var t := a + b + c + ['\n'] + d + e + f + ['\n'] + g;
            t == a + b + c + ['\n'] + (d + e + f + ['\n'] + g)
            && t == (a + b + c + ['\n'] + d) + e + f + ['\n'] + g
  {
  }

  /** Every character of `s` is one `.` matches. */
  predicate AllAny(s: String)
  {
    forall i :: 0 <= i < |s| ==> AnyChar(s[i])
  }

  /** `lead(.+)` captures the rest of the line after the first occurrence of the lead. */
  lemma CaptureLine(pre: String, lead: String, value: String, post: String)
    requires |lead| > 0 && !Contains(pre + lead[..|lead| - 1], lead)
    requires |value| > 0 && AllAny(value)
    ensures Capture(pre + lead + value + ['\n'] + post, lead, AnyChar, None) == Some(value)
  {
    var head := pre + lead[..|lead| - 1];
    var t := lead + value + ['\n'] + post;
    var s := pre + t;
    assert s == pre + lead + value + ['\n'] + post;
    forall k | 0 <= k < |pre| ensures MatchAt(s, k, lead, AnyChar, None).None? {
      if StartsWith(s[k..], lead) {
        assert s[k..][..|lead|] == s[k..k + |lead|];
        assert s[k..k + |lead|] == head[k..k + |lead|];
        assert OccursAt(head, lead, k);
      }
    }
    FirstFromSkip(s, 0, |pre|, lead, AnyChar, None);
    assert s[|pre|..] == t;
    MatchAtShift(s, |pre|, lead, AnyChar, None);
    MatchLine(lead, value, post);
  }

  /** A text that starts with the lead and then a line yields that line. */
  lemma MatchLine(lead: String, value: String, post: String)
    requires |value| > 0 && AllAny(value)
    ensures MatchAt(lead + value + ['\n'] + post, 0, lead, AnyChar, None) == Some(value)
  {
    var s := lead + value + ['\n'] + post;
    assert s[0..][..|lead|] == lead;
    assert s[|lead|..] == value + (['\n'] + post);
    SpanOf(value, ['\n'] + post, AnyChar);
  }

  // ---------------------------------------------------------------------------------------------
  // Dropping the renewal flag
  // ---------------------------------------------------------------------------------------------

  /** The first position at `k` or after where `sub` occurs, or -1 when there is none. */
  function IndexFrom(s: String, sub: String, k: nat): (i: int)
    requires k <= |s|
    ensures i == -1 || (k <= i && OccursAt(s, sub, i))
    ensures forall j :: k <= j && (i == -1 || j < i) ==> !OccursAt(s, sub, j)
    decreases |s| - k
  {
    if OccursAt(s, sub, k) then k else if k == |s| then -1 else IndexFrom(s, sub, k + 1)
  }

  /** `s.replace(/sub/, '')` for a pattern with no special characters: the first occurrence goes. */
  function RemoveFirstOccurrence(s: String, sub: String): (r: String)
    ensures !Contains(s, sub) ==> r == s
    ensures Contains(s, sub) ==> |r| == |s| - |sub|
    ensures Contains(s, sub) ==> exists i :: OccursAt(s, sub, i) && (forall j :: 0 <= j < i ==> !OccursAt(s, sub, j))
                                             && r == s[..i] + s[i + |sub|..]
  {
    var i := IndexFrom(s, sub, 0);
    if i < 0 then s else s[..i] + s[i + |sub|..]
  }

  /** `cat(file).replace(/\nletsencrypt_renew=1/, '')`. */
  function DropFlag(s: String): String
  {
    RemoveFirstOccurrence(s, RenewFlag)
  }

  /**
   * The line break and flag line at the first place the flag occurs are cut out, and the text on
   * either side is kept as it was.
   */
  lemma DropFlagLine(a: String, b: String)
    requires !Contains(a + RenewFlag[..|RenewFlag| - 1], RenewFlag)
    ensures DropFlag(a + RenewFlag + b) == a + b
  {
    RemoveFirstAt(a, RenewFlag, b);
  }

  /** The first occurrence, preceded by no other, is the one removed. */
  lemma RemoveFirstAt(a: String, sub: String, b: String)
    requires |sub| > 0 && !Contains(a + sub[..|sub| - 1], sub)
    ensures RemoveFirstOccurrence(a + sub + b, sub) == a + b
  {
    var s := a + sub + b;
    var head := a + sub[..|sub| - 1];
    assert s[|a|..|a| + |sub|] == sub;
    assert OccursAt(s, sub, |a|);
    var i := IndexFrom(s, sub, 0);
    assert i != -1 && i <= |a|;
    if i < |a| {
      assert s[i..i + |sub|] == head[i..i + |sub|];
      assert OccursAt(head, sub, i);
    }
    assert i == |a|;
    assert s[..i] == a;
    assert s[i + |sub|..] == b;
  }

  /** A text without the flag is written back unchanged. */
  lemma DropFlagAbsent(s: String)
    requires !Contains(s, RenewFlag)
    ensures DropFlag(s) == s
  {
  }

  /** `cat` of a path that is not there reads as empty text. */
  function ReadFile(files: map<String, String>, path: String): String
  {
    if path in files then files[path] else ""
  }

  /** The flag dropped `n` times over. */
  function DropTimes(s: String, n: nat): String
  {
    if n == 0 then s else DropFlag(DropTimes(s, n - 1))
  }

  // ---------------------------------------------------------------------------------------------
  // The loop over the domains in renewal
  // ---------------------------------------------------------------------------------------------

  /** The files edited, one entry per targeted domain, in the order of the renewal list. */
  function Targets(domains: seq<String>, rows: seq<Row>, host: Host): seq<String>
    decreases |domains|
  {
    if |domains| == 0 then []
    else
      var t := Target(domains[|domains| - 1], rows, host);
      Targets(domains[..|domains| - 1], rows, host) + (if t.Some? then [t.value] else [])
  }

  /** One domain's effect: the target's file loses its first flag and is counted, unless in test mode. */
  function Step(prior: (map<String, String>, nat), target: Option<String>, test: bool): (map<String, String>, nat)
  {
    if target.None? || test then prior
    else (Edited(prior.0, target.value), prior.1 + 1)
  }

  /** The domain files after the flag is dropped from the one at `path`. */
  function Edited(files: map<String, String>, path: String): map<String, String>
  {
    files[path := DropFlag(ReadFile(files, path))]
  }

  /** The domain files and the count of edits after the domains are processed in turn. */
  function Clean(domains: seq<String>, rows: seq<Row>, host: Host, test: bool, files: map<String, String>)
    : (map<String, String>, nat)
    decreases |domains|
  {
    if |domains| == 0 then (files, 0)
    else Step(Clean(domains[..|domains| - 1], rows, host, test, files), Target(domains[|domains| - 1], rows, host), test)
  }

  /**
   * The script's loop: each domain in renewal is looked up in the expiry rows, and the file of
   * each target is rewritten without its first renewal flag, unless in test mode.
   */
  method CleanRenewals(test: bool, expiryOut: String, renewalsOut: String, extract: String -> Option<Row>,
                       host: Host, files: map<String, String>)
    returns (written: map<String, String>, count: nat)
    ensures (written, count) == Clean(Split(Trim(renewalsOut), '\n'), Rows(expiryOut, extract), host, test, files)
  {
    written, count := CleanDomains(Split(Trim(renewalsOut), '\n'), Rows(expiryOut, extract), host, test, files);
  }

  /** The loop over the domains in renewal, given the expiry rows. */
  method CleanDomains(domains: seq<String>, rows: seq<Row>, host: Host, test: bool, files: map<String, String>)
    returns (written: map<String, String>, count: nat)
    ensures (written, count) == Clean(domains, rows, host, test, files)
  {
    written, count := files, 0;
    for k := 0 to |domains|
      invariant (written, count) == Clean(domains[..k], rows, host, test, files)
    {
      assert domains[..k + 1][..k] == domains[..k];
      written, count := VisitDomain(domains[k], rows, host, test, written, count);
    }
    assert domains[..|domains|] == domains;
  }

  /** The body of the loop for one domain in renewal. */
  method VisitDomain(domain: String, rows: seq<Row>, host: Host, test: bool, files: map<String, String>, count: nat)
    returns (written: map<String, String>, total: nat)
    ensures written == Step((files, count), Target(domain, rows, host), test).0
    ensures total == Step((files, count), Target(domain, rows, host), test).1
  {
    var file := FindTarget(domain, rows, host);
    written, total := files, count;
    if file.Some? && !test {
      written := Edited(files, file.value);
      total := count + 1;
    }
  }

  /** The checks of the loop body that decide whether the domain's file is edited. */
  method FindTarget(domain: String, rows: seq<Row>, host: Host) returns (file: Option<String>)
    ensures file == Target(domain, rows, host)
  {
    var row := FindRow(rows, domain);
    if row.None? || !Due(row.value) {
      return None;
    }
    var text := host.detail(domain);
    var issued := Capture(text, IssuedLead, AnyChar, None);
    file := Capture(text, FileLead, AnyChar, None);
    if issued.None? || file.None? {
      return None;
    }
    var t := host.parse(issued.value);
    if !(t.Some? && host.now - t.value > DayMs) {
      return None;
    }
  }

  /** In test mode no file is written and nothing is counted. */
  lemma {:induction false} TestChangesNothing(domains: seq<String>, rows: seq<Row>, host: Host, files: map<String, String>)
    ensures Clean(domains, rows, host, true, files) == (files, 0)
    decreases |domains|
  {
    if |domains| > 0 {
      TestChangesNothing(domains[..|domains| - 1], rows, host, files);
    }
  }

  /** Outside test mode the count is the number of targeted domains. */
  lemma {:induction false} CountIsTargets(domains: seq<String>, rows: seq<Row>, host: Host, files: map<String, String>)
    ensures Clean(domains, rows, host, false, files).1 == |Targets(domains, rows, host)|
    decreases |domains|
  {
    if |domains| > 0 {
      CountIsTargets(domains[..|domains| - 1], rows, host, files);
    }
  }

  /**
   * Outside test mode the files written are those already there and the targets, and each file
   * has lost one renewal flag for every domain that targeted it: the others are untouched.
   */
  lemma {:induction false} CleanFiles(domains: seq<String>, rows: seq<Row>, host: Host, files: map<String, String>, path: String)
    ensures var (written, _) := Clean(domains, rows, host, false, files);
            var targets := Targets(domains, rows, host);
            (path in written <==> path in files || path in targets)
            && ReadFile(written, path) == DropTimes(ReadFile(files, path), multiset(targets)[path])
    decreases |domains|
  {
    if |domains| > 0 {
      var init := domains[..|domains| - 1];
      CleanFiles(init, rows, host, files, path);
      CleanStepFile(Clean(init, rows, host, false, files), Target(domains[|domains| - 1], rows, host), path);
      TargetsCount(domains, rows, host, path);
      var n := multiset(Targets(init, rows, host))[path];
      assert DropTimes(ReadFile(files, path), n + 1) == DropFlag(DropTimes(ReadFile(files, path), n));
    }
  }

  /** The last domain adds one to the count of its target, and to no other. */
  lemma TargetsCount(domains: seq<String>, rows: seq<Row>, host: Host, path: String)
    requires |domains| > 0
    ensures var t := Target(domains[|domains| - 1], rows, host);
            var before := Targets(domains[..|domains| - 1], rows, host);
            (path in Targets(domains, rows, host) <==> path in before || t == Some(path))
            && multiset(Targets(domains, rows, host))[path] == multiset(before)[path] + (if t == Some(path) then 1 else 0)
  {
    var t := Target(domains[|domains| - 1], rows, host);
    var before := Targets(domains[..|domains| - 1], rows, host);
    if t.Some? {
      assert multiset(before + [t.value])[path] == multiset(before)[path] + (if path == t.value then 1 else 0);
    } else {
      assert Targets(domains, rows, host) == before;
    }
  }

  /** One step outside test mode touches only the target's file, dropping one flag from it. */
  lemma CleanStepFile(prior: (map<String, String>, nat), t: Option<String>, path: String)
    ensures var w := Step(prior, t, false).0;
            (path in w <==> path in prior.0 || t == Some(path))
            && ReadFile(w, path) == if t == Some(path) then DropFlag(ReadFile(prior.0, path)) else ReadFile(prior.0, path)
  {
  }

  /**
   * A file that one domain targets, with the flag line after a first part in which the flag does
   * not occur, ends up as that text with the flag line cut out.
   */
  lemma FlagRemovedOnce(domains: seq<String>, rows: seq<Row>, host: Host, files: map<String, String>,
                        path: String, a: String, b: String)
    requires multiset(Targets(domains, rows, host))[path] == 1
    requires path in files && files[path] == a + RenewFlag + b
    requires !Contains(a + RenewFlag[..|RenewFlag| - 1], RenewFlag)
    ensures var written := Clean(domains, rows, host, false, files).0;
            path in written && written[path] == a + b
  {
    CleanFiles(domains, rows, host, files, path);
    assert DropTimes(a + RenewFlag + b, 1) == DropFlag(a + RenewFlag + b);
    DropFlagLine(a, b);
  }

  /** The summary the script logs at the end: nothing changed, or how many domains were changed. */
  function Summary(count: nat, renewalsAfter: String): (r: seq<String>)
    ensures count == 0 <==> r == ["Done and nothing changed"]
  {
    if count == 0 then ["Done and nothing changed"]
    else ["Change applied for " + NatToString(count) + " domains",
          "Total domains in active renewal: " + NatToString(|Split(Trim(renewalsAfter), '\n')|)]
  }

  /** A test run always ends with the nothing-changed summary. */
  lemma TestSummary(domains: seq<String>, rows: seq<Row>, host: Host, files: map<String, String>, after: String)
    ensures Summary(Clean(domains, rows, host, true, files).1, after) == ["Done and nothing changed"]
  {
    TestChangesNothing(domains, rows, host, files);
  }
}
