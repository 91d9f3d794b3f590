/**
 * The health-pulse repairs (src/executor/pulse.js). Given the logs of a failed service test,
 * `fixPHP` moves aside the site of every PHP-FPM pool that raised an alert before FPM failed to
 * start, and `fixNGINX` moves aside the configuration of every site that names a certificate
 * nginx could not load. Both pop the last log line in place and record what they moved in
 * `test.fixes`.
 *
 * The clean-up runs are returned as the commands issued; the `grep` run is a parameter that maps
 * a certificate path to the command's output.
 */
module Pulse {
  import opened Base
  import opened Strings
  import opened Patterns

  /** `arr.splice(arr.length - 1)`: the last element removed; an empty array stays empty. */
  function DropLast<T>(s: seq<T>): (r: seq<T>)
    ensures |s| > 0 ==> r == s[..|s| - 1]
    ensures |s| == 0 ==> r == []
  {
    if |s| == 0 then s else s[..|s| - 1]
  }

  /** One `[name, logs]` entry of `test.logs.fpms` after its last line is popped. */
  function DropLastLog(e: (String, seq<String>)): (String, seq<String>)
  {
    (e.0, DropLast(e.1))
  }

  /** The test object: the logs it carries and the fixes recorded on it. */
  class Test {
    /** `test.logs.fpms`, in the order of `Object.entries`. */
    var fpms: seq<(String, seq<String>)>
    /** `test.logs.nginx`. */
    var nginx: seq<String>
    /** `test.fixes`, absent until a repair records something. */
    var fixes: Option<seq<(String, seq<String>)>>

    constructor (fpms: seq<(String, seq<String>)>, nginx: seq<String>, fixes: Option<seq<(String, seq<String>)>>)
      ensures this.fpms == fpms && this.nginx == nginx && this.fixes == fixes
    {
      this.fpms := fpms;
      this.nginx := nginx;
      this.fixes := fixes;
    }
  }

  /** `test.fixes = test.fixes || {}; test.fixes[field] = edits`. */
  function Record(fixes: Option<seq<(String, seq<String>)>>, field: String, edits: seq<String>)
    : seq<(String, seq<String>)>
  {
    Put(fixes.GetOr([]), field, edits)
  }

  /** Recording one field leaves every other field as it was, and creates the object if needed. */
  lemma RecordKeepsOthers(fixes: Option<seq<(String, seq<String>)>>, field: String, edits: seq<String>, other: String)
    ensures Get(Record(fixes, field, edits), field) == Some(edits)
    ensures other != field ==> Get(Record(fixes, field, edits), other)
                               == if fixes.None? then None else Get(fixes.value, other)
  {
    GetPut(fixes.GetOr([]), field, edits, field);
    GetPut(fixes.GetOr([]), field, edits, other);
  }

  // ---------------------------------------------------------------------------------------------
  // fixPHP (pulse.js:3-19)
  // ---------------------------------------------------------------------------------------------

  const FpmFailed: String := "ERROR: FPM initialization failed"
  const AlertLead: String := "ALERT: [pool "

  /** `/ALERT: \[pool (\d+)\]/`: the pool number an alert line names. */
  function PoolOf(line: String): Option<String>
  {
    Capture(line, AlertLead, IsDigit, Some(']'))
  }

  /** An alert line yields its pool, whatever comes before the alert (if it holds no 'A'). */
  lemma PoolOfAlert(pre: String, pool: String, post: String)
    requires |pool| > 0 && forall j :: 0 <= j < |pool| ==> IsDigit(pool[j])
    requires 'A' !in pre
    ensures PoolOf(pre + AlertLead + pool + "]" + post) == Some(pool)
  {
    CaptureAfter(pre, AlertLead, pool, IsDigit, ']', post);
  }

  /** The command that moves a pool's site aside. */
  function CleanPool(pool: String): seq<String>
  {
    ["CLEAN_DOMAIN", "mv", pool, ""]
  }

  /** The pools named by alert lines, in order. */
  function Pools(lines: seq<String>): seq<String>
  {
    if |lines| == 0 then []
    else
      var p := PoolOf(lines[|lines| - 1]);
      Pools(lines[..|lines| - 1]) + (if p.Some? then [p.value] else [])
  }

  /** A pool is listed exactly when some line of the log is an alert naming it. */
  lemma {:induction false} PoolsFrom(lines: seq<String>, x: String)
    ensures x in Pools(lines) <==> exists line :: line in lines && PoolOf(line) == Some(x)
  {
    if |lines| > 0 {
      PoolsFrom(lines[..|lines| - 1], x);
      assert lines == lines[..|lines| - 1] + [lines[|lines| - 1]];
    }
  }

  /** The pools of one log: the alerts before its last line, when that line reports the failure. */
  function LogPools(logs: seq<String>): seq<String>
    requires |logs| > 0
  {
    if EndsWith(logs[|logs| - 1], FpmFailed) then Pools(logs[..|logs| - 1]) else []
  }

  /**
   * The scan over the fpm logs: the pools edited so far, whether it stopped on an empty log (whose
   * popped "last line" is `undefined`, so `endsWith` throws) and how many logs it went through.
   */
  datatype Scan = Scan(edits: seq<String>, failed: bool, done: nat)

  function PhpScan(fpms: seq<(String, seq<String>)>): (r: Scan)
    ensures r.done <= |fpms|
    ensures !r.failed ==> r.done == |fpms|
  {
    if |fpms| == 0 then Scan([], false, 0)
    else
      var s := PhpScan(fpms[..|fpms| - 1]);
      var logs := fpms[|fpms| - 1].1;
      if s.failed then s
      else if |logs| == 0 then Scan(s.edits, true, s.done)
      else Scan(s.edits + LogPools(logs), false, s.done + 1)
  }

  /** Once the scan has thrown, the later logs change nothing. */
  lemma {:induction false} PhpScanStops(fpms: seq<(String, seq<String>)>, k: nat)
    requires k <= |fpms| && PhpScan(fpms[..k]).failed
    ensures PhpScan(fpms) == PhpScan(fpms[..k])
    decreases |fpms| - k
  {
    if k < |fpms| {
      assert fpms[..k + 1][..k] == fpms[..k];
      PhpScanStops(fpms, k + 1);
    } else {
      assert fpms[..k] == fpms;
    }
  }

  /** The scan goes through the logs in order, stopping at the first empty one. */
  lemma {:induction false} PhpScanFails(fpms: seq<(String, seq<String>)>)
    ensures PhpScan(fpms).failed <==> exists i :: 0 <= i < |fpms| && |fpms[i].1| == 0
    ensures PhpScan(fpms).failed ==> |fpms[PhpScan(fpms).done].1| == 0
                                     && forall i :: 0 <= i < PhpScan(fpms).done ==> |fpms[i].1| > 0
  {
    if |fpms| > 0 {
      var init := fpms[..|fpms| - 1];
      PhpScanFails(init);
      if exists i :: 0 <= i < |init| && |init[i].1| == 0 {
        var i :| 0 <= i < |init| && |init[i].1| == 0;
        assert fpms[i] == init[i];
      }
    }
  }

  /** Nothing is edited unless some log ends with the FPM failure. */
  lemma {:induction false} PhpEditsNeedFailure(fpms: seq<(String, seq<String>)>)
    requires forall i :: 0 <= i < |fpms| && |fpms[i].1| > 0 ==> !EndsWith(fpms[i].1[|fpms[i].1| - 1], FpmFailed)
    ensures PhpScan(fpms).edits == []
  {
    if |fpms| > 0 {
      PhpEditsNeedFailure(fpms[..|fpms| - 1]);
    }
  }

  /**
   * Every pool edited is named by an alert line that precedes the failure line ending one of the
   * logs, and, when no log is empty, every such pool is edited.
   */
  lemma {:induction false} PhpEditsAreAlerts(fpms: seq<(String, seq<String>)>, x: String)
    ensures x in PhpScan(fpms).edits ==>
              exists i :: 0 <= i < |fpms| && |fpms[i].1| > 0 && x in LogPools(fpms[i].1)
    ensures (forall i :: 0 <= i < |fpms| ==> |fpms[i].1| > 0) ==>
              ((exists i :: 0 <= i < |fpms| && |fpms[i].1| > 0 && x in LogPools(fpms[i].1))
               ==> x in PhpScan(fpms).edits)
  {
    if |fpms| > 0 {
      var init := fpms[..|fpms| - 1];
      PhpEditsAreAlerts(init, x);
      var last := fpms[|fpms| - 1];
      if x in PhpScan(fpms).edits && x in PhpScan(init).edits {
        var i :| 0 <= i < |init| && |init[i].1| > 0 && x in LogPools(init[i].1);
        assert fpms[i] == init[i];
      }
      if (forall i :: 0 <= i < |fpms| ==> |fpms[i].1| > 0) {
        PhpScanFails(init);
        assert forall i :: 0 <= i < |init| ==> init[i] == fpms[i];
        if exists i :: 0 <= i < |fpms| - 1 && x in LogPools(fpms[i].1) {
          var i :| 0 <= i < |fpms| - 1 && x in LogPools(fpms[i].1);
          assert init[i] == fpms[i];
        }
      }
    }
  }

  /** The alert lines of one log, in order, each moved aside as it is found. */
  method ScanPools(lines: seq<String>) returns (pools: seq<String>, ran: seq<seq<String>>)
    ensures pools == Pools(lines)
    ensures ran == MapSeq(pools, CleanPool)
  {
    pools, ran := [], [];
    for k := 0 to |lines|
      invariant pools == Pools(lines[..k])
      invariant |ran| == |pools| && forall i :: 0 <= i < |ran| ==> ran[i] == CleanPool(pools[i])
    {
      assert lines[..k + 1][..k] == lines[..k];
      var m := PoolOf(lines[k]);
      if m.Some? {
        ran := ran + [CleanPool(m.value)];
        pools := pools + [m.value];
      }
    }
    assert lines[..|lines|] == lines;
  }

  /** Popping the next log's last line extends the popped prefix by one. */
  lemma PopNext(start: seq<(String, seq<String>)>, k: nat)
    requires k < |start|
    ensures (MapSeq(start[..k], DropLastLog) + start[k..])[k := DropLastLog(start[k])]
            == MapSeq(start[..k + 1], DropLastLog) + start[k + 1..]
  {
    var a := (MapSeq(start[..k], DropLastLog) + start[k..])[k := DropLastLog(start[k])];
    var b := MapSeq(start[..k + 1], DropLastLog) + start[k + 1..];
    assert |a| == |b|;
    forall i | 0 <= i < |a| ensures a[i] == b[i] {
      if i < k {
        assert start[..k + 1][i] == start[..k][i];
      }
    }
  }

  /** The pools of one log whose last line is popped, each moved aside as it is found. */
  method ScanLog(logs: seq<String>) returns (pools: seq<String>, ran: seq<seq<String>>)
    requires |logs| > 0
    ensures pools == LogPools(logs)
    ensures ran == MapSeq(pools, CleanPool)
  {
    pools, ran := [], [];
    if EndsWith(logs[|logs| - 1], FpmFailed) {
      pools, ran := ScanPools(logs[..|logs| - 1]);
    }
  }

  /** The scan through one more log that is not empty. */
  lemma PhpScanNext(start: seq<(String, seq<String>)>, k: nat, edits: seq<String>)
    requires k < |start| && |start[k].1| > 0
    requires PhpScan(start[..k]) == Scan(edits, false, k)
    ensures PhpScan(start[..k + 1]) == Scan(edits + LogPools(start[k].1), false, k + 1)
  {
    assert start[..k + 1][..k] == start[..k];
  }

  /** Commands recorded one per edit stay one per edit when both grow together. */
  lemma CleanAppend(edits: seq<String>, ran: seq<seq<String>>, pools: seq<String>)
    requires ran == MapSeq(edits, CleanPool)
    ensures ran + MapSeq(pools, CleanPool) == MapSeq(edits + pools, CleanPool)
  {
  }

  /**
   * The loop of `fixPHP` over the fpm logs, popping each log's last line as it goes; it stops at
   * `k`, the end or the first empty log (whose splice removes nothing before `endsWith` throws).
   */
  method PopLogs(start: seq<(String, seq<String>)>)
    returns (fpms: seq<(String, seq<String>)>, edits: seq<String>, ran: seq<seq<String>>, k: nat)
    ensures k <= |start| && (k == |start| || |start[k].1| == 0)
    ensures PhpScan(start[..k]) == Scan(edits, false, k)
    ensures fpms == MapSeq(start[..k], DropLastLog) + start[k..]
    ensures ran == MapSeq(edits, CleanPool)
  {
    fpms, edits, ran := start, [], [];
    k := 0;
    while k < |start| && |start[k].1| > 0
      invariant k <= |start|
      invariant PhpScan(start[..k]) == Scan(edits, false, k)
      invariant fpms == MapSeq(start[..k], DropLastLog) + start[k..]
      invariant ran == MapSeq(edits, CleanPool)
    {
      var logs := fpms[k].1;
      assert logs == start[k].1;
      fpms := fpms[k := DropLastLog(fpms[k])];
      var pools, cleaned := ScanLog(logs);
      PhpScanNext(start, k, edits);
      CleanAppend(edits, ran, pools);
      edits := edits + pools;
      ran := ran + cleaned;
      PopNext(start, k);
      k := k + 1;
    }
  }

  /** The whole scan: the logs popped, the pools edited and moved aside, and whether it threw. */
  method ScanFpms(start: seq<(String, seq<String>)>)
    returns (fpms: seq<(String, seq<String>)>, edits: seq<String>, ran: seq<seq<String>>, failed: bool)
    ensures var s := PhpScan(start);
            edits == s.edits && failed == s.failed
            && ran == MapSeq(s.edits, CleanPool)
            && fpms == MapSeq(start[..s.done], DropLastLog) + start[s.done..]
  {
    var k;
    fpms, edits, ran, k := PopLogs(start);
    failed := k < |start|;
    if failed {
      assert start[..k + 1][..k] == start[..k];
      PhpScanStops(start, k + 1);
    } else {
      assert start[..k] == start;
    }
  }

  /** `fixPHP`: each fpm log loses its last line; the pools edited are recorded as `fixes.fpm`. */
  method FixPhp(test: Test) returns (ran: seq<seq<String>>, failed: bool)
    modifies test
    ensures var s := PhpScan(old(test.fpms));
            failed == s.failed
            && ran == MapSeq(s.edits, CleanPool)
            && test.fpms == MapSeq(old(test.fpms)[..s.done], DropLastLog) + old(test.fpms)[s.done..]
            && test.nginx == old(test.nginx)
            && test.fixes == if failed then old(test.fixes) else Some(Record(old(test.fixes), "fpm", s.edits))
  {
    var fpms, edits;
    fpms, edits, ran, failed := ScanFpms(test.fpms);
    test.fpms := fpms;
    if !failed {
      test.fixes := Some(Record(test.fixes, "fpm", edits));
    }
  }

  // ---------------------------------------------------------------------------------------------
  // fixNGINX (pulse.js:21-44)
  // ---------------------------------------------------------------------------------------------

  const NginxFailed: String := "nginx: configuration file /etc/nginx/nginx.conf test failed"
  const CertLead: String := "nginx: [emerg] cannot load certificate \""

  /** `[\w.\/]`. */
  predicate CertChar(c: char)
  {
    IsWordChar(c) || c == '.' || c == '/'
  }

  /** `/nginx: \[emerg\] cannot load certificate \"([\w.\/]+)\"/`: the certificate path. */
  function CertOf(line: String): Option<String>
  {
    Capture(line, CertLead, CertChar, Some('"'))
  }

  /** The largest `k` in `1..hi` at which `sub` occurs in `t`, or 0. */
  function LastOccurrence(t: String, sub: String, hi: int): (k: int)
    ensures 0 <= k && (hi < 1 ==> k == 0) && (hi >= 1 ==> k <= hi)
    ensures k > 0 ==> OccursAt(t, sub, k)
    ensures forall j :: k < j <= hi && j >= 1 ==> !OccursAt(t, sub, j)
    decreases hi
  {
    if hi < 1 then 0 else if OccursAt(t, sub, hi) then hi else LastOccurrence(t, sub, hi - 1)
  }

  /**
   * The match of `/\/etc\/nginx\/conf.d\/(.+)\.conf/` at position `i` (the dot of `conf.d` is
   * unescaped, so it matches any character): after the lead, the greedy `(.+)` backs off to the
   * last `.conf` it can reach within its line.
   */
  function ConfAt(s: String, i: nat): Option<String>
    requires i <= |s|
  {
    if |s| - i < 18 || s[i..i + 15] != "/etc/nginx/conf" || !AnyChar(s[i + 15]) || s[i + 16..i + 18] != "d/"
    then None
    else
      var t := s[i + 18..];
      var k := LastOccurrence(t, ".conf", Span(t, AnyChar) - 5);
      if k == 0 then None else Some(t[..k])
  }

  function ConfFrom(s: String, i: nat): Option<String>
    requires i <= |s|
    decreases |s| - i
  {
    var m := ConfAt(s, i);
    if m.Some? || i == |s| then m else ConfFrom(s, i + 1)
  }

  /** The site name a `grep -l` hit names. */
  function ConfName(f: String): Option<String>
  {
    ConfFrom(f, 0)
  }

  /** The hit for a site's configuration file names that site. */
  lemma ConfNameOf(x: String)
    requires |x| > 0 && forall j :: 0 <= j < |x| ==> AnyChar(x[j])
    ensures ConfName("/etc/nginx/conf.d/" + x + ".conf") == Some(x)
  {
    var f := "/etc/nginx/conf.d/" + x + ".conf";
    var t := f[18..];
    assert t == x + ".conf";
    SpanOf(t, "", AnyChar);
    assert t + "" == t;
    assert OccursAt(t, ".conf", |x|);
  }

  /** The command that finds the configurations naming a certificate. */
  function GrepCommand(cert: String): seq<String>
  {
    ["SHELL_SUDO", "root", "grep", "-lr", cert, "/etc/nginx/conf.d"]
  }

  /** The command that moves a site's configuration aside. */
  function CleanConf(site: String): seq<String>
  {
    ["CLEAN_DOMAIN", "mv", "", site]
  }

  /** The sites named by the hits, in order. */
  function Confs(files: seq<String>): seq<String>
  {
    if |files| == 0 then []
    else
      var m := ConfName(files[|files| - 1]);
      Confs(files[..|files| - 1]) + (if m.Some? then [m.value] else [])
  }

  /** The edits and the commands of the certificate scan. */
  datatype CertScan = CertScan(edits: seq<String>, ran: seq<seq<String>>)

  /** The hits of the `grep` run for a certificate: its output, trimmed, one line per file. */
  function Hits(grep: String -> String, cert: String): seq<String>
  {
    Split(Trim(grep(cert)), '\n')
  }

  function ScanCerts(lines: seq<String>, grep: String -> String): (r: CertScan)
  {
    if |lines| == 0 then CertScan([], [])
    else
      var s := ScanCerts(lines[..|lines| - 1], grep);
      var m := CertOf(lines[|lines| - 1]);
      if m.None? then s
      else
        var sites := Confs(Hits(grep, m.value));
        CertScan(s.edits + sites, s.ran + [GrepCommand(m.value)] + MapSeq(sites, CleanConf))
  }

  /** `fixNGINX`'s edits: none unless the popped last line is exactly the failed-test message. */
  function NginxScan(logs: seq<String>, grep: String -> String): CertScan
  {
    if |logs| > 0 && logs[|logs| - 1] == NginxFailed then ScanCerts(logs[..|logs| - 1], grep)
    else CertScan([], [])
  }

  /** Every site edited is named by a hit of a certificate some log line failed to load. */
  lemma {:induction false} CertEditsFromHits(lines: seq<String>, grep: String -> String, x: String)
    requires x in ScanCerts(lines, grep).edits
    ensures exists i, f :: 0 <= i < |lines| && CertOf(lines[i]).Some?
                           && f in Hits(grep, CertOf(lines[i]).value) && ConfName(f) == Some(x)
  {
    var init := lines[..|lines| - 1];
    var m := CertOf(lines[|lines| - 1]);
    if x in ScanCerts(init, grep).edits {
      CertEditsFromHits(init, grep, x);
      var i, f :| 0 <= i < |init| && CertOf(init[i]).Some?
                  && f in Hits(grep, CertOf(init[i]).value) && ConfName(f) == Some(x);
      assert lines[i] == init[i];
    } else {
      var files := Hits(grep, m.value);
      ConfsFrom(files, x);
      var f :| f in files && ConfName(f) == Some(x);
      assert CertOf(lines[|lines| - 1]).Some?;
    }
  }

  /** A site is among the names of the hits exactly when some hit names it. */
  lemma {:induction false} ConfsFrom(files: seq<String>, x: String)
    ensures x in Confs(files) <==> exists f :: f in files && ConfName(f) == Some(x)
  {
    if |files| > 0 {
      var init := files[..|files| - 1];
      ConfsFrom(init, x);
      assert files == init + [files[|files| - 1]];
    }
  }

  /** The line names a certificate nginx failed to load. */
  predicate HasCert(l: String)
  {
    CertOf(l).Some?
  }

  /** Every certificate line runs one `grep`, followed by one clean-up per site it names. */
  lemma {:induction false} CertCommands(lines: seq<String>, grep: String -> String)
    ensures |ScanCerts(lines, grep).ran| == |ScanCerts(lines, grep).edits| + |Filter(lines, HasCert)|
  {
    if |lines| > 0 {
      var init := lines[..|lines| - 1];
      CertCommands(init, grep);
      CertLinesLast(lines);
    }
  }

  /** The certificate lines are those before the last, then the last if it names one. */
  lemma CertLinesLast(lines: seq<String>)
    requires |lines| > 0
    ensures |Filter(lines, HasCert)| == |Filter(lines[..|lines| - 1], HasCert)| + (if HasCert(lines[|lines| - 1]) then 1 else 0)
  {
    var init := lines[..|lines| - 1];
    FilterAppend(init, [lines[|lines| - 1]], HasCert);
    assert lines == init + [lines[|lines| - 1]];
  }

  /** The hits of one certificate, each naming a site moved aside as it is found. */
  method ScanConfs(files: seq<String>) returns (sites: seq<String>, ran: seq<seq<String>>)
    ensures sites == Confs(files)
    ensures ran == MapSeq(sites, CleanConf)
  {
    sites, ran := [], [];
    for k := 0 to |files|
      invariant sites == Confs(files[..k])
      invariant |ran| == |sites| && forall i :: 0 <= i < |ran| ==> ran[i] == CleanConf(sites[i])
    {
      assert files[..k + 1][..k] == files[..k];
      var m2 := ConfName(files[k]);
      if m2.Some? {
        ran := ran + [CleanConf(m2.value)];
        sites := sites + [m2.value];
      }
    }
    assert files[..|files|] == files;
  }

  /** `fixNGINX`: the nginx log loses its last line; the sites edited are recorded as `fixes.nginx`. */
  method FixNginx(test: Test, grep: String -> String) returns (ran: seq<seq<String>>)
    modifies test
    ensures var s := NginxScan(old(test.nginx), grep);
            ran == s.ran
            && test.nginx == DropLast(old(test.nginx))
            && test.fpms == old(test.fpms)
            && test.fixes == Some(Record(old(test.fixes), "nginx", s.edits))
  {
    var logs := test.nginx;
    test.nginx := DropLast(logs);
    var edits: seq<String> := [];
    ran := [];
    if |logs| > 0 && logs[|logs| - 1] == NginxFailed {
      var lines := DropLast(logs);
      for k := 0 to |lines|
        invariant ScanCerts(lines[..k], grep) == CertScan(edits, ran)
        invariant test.nginx == DropLast(logs) && test.fpms == old(test.fpms) && test.fixes == old(test.fixes)
      {
        assert lines[..k + 1][..k] == lines[..k];
        var m := CertOf(lines[k]);
        if m.Some? {
          var find := Hits(grep, m.value);
          ran := ran + [GrepCommand(m.value)];
          var sites, cleaned := ScanConfs(find);
          edits := edits + sites;
          ran := ran + cleaned;
        }
      }
      assert lines[..|lines|] == lines;
    }
    test.fixes := Some(Record(test.fixes, "nginx", edits));
  }
}
