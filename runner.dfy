/**
 * The planning decisions of `runConfig` (src/executor/runner.js): how a feature line splits into
 * key and value, which domain-level commands a sandboxed run skips, the MySQL/PostgreSQL database
 * name, the DNS feature, the firewall toggle with its lazily probed status, the Node engine
 * argument, and the older source planner of the runner's own `runConfigSubdomain`.
 *
 * Shell, virtualmin and iptables calls are not made: each decision yields the steps it would take.
 */
module Runner {
  import opened Base
  import opened Strings
  import RunnerSub

  // ---------------------------------------------------------------------------------------------
  // Feature key and value (runner.js:190-191)
  // ---------------------------------------------------------------------------------------------

  /** A feature's value: text, or the fields of an object. */
  datatype FeatureValue = Plain(text: String) | Fields(fields: seq<(String, String)>)

  /** An entry of `config.features`: a text line, or an object keyed by its first key. */
  datatype Item = Text(line: String) | Obj(key: String, value: FeatureValue)

  /**
   * The key is the text before the first space and the value the text after it
   * (`substring(key.length + 1)`, "" when there is no space); an object gives its key and value.
   */
  function KeyOf(f: Item): (String, FeatureValue)
  {
    match f
    case Text(s) =>
      var key := SplitLimit(s, {' '}, 2)[0];
      (key, Plain(if |key| + 1 <= |s| then s[|key| + 1..] else ""))
    case Obj(k, v) => (k, v)
  }

  /** `key value` splits back into that key and that value. */
  lemma KeyOfWords(key: String, value: String)
    requires forall i :: 0 <= i < |key| ==> key[i] != ' '
    ensures KeyOf(Text(key + " " + value)) == (key, Plain(value))
  {
    SplitLimitFirst(key, ' ', value, {' '});
    assert key + " " + value == key + [' '] + value;
    assert (key + " " + value)[|key| + 1..] == value;
  }

  /** A line with no space is all key, with the empty value. */
  lemma KeyOfWord(key: String)
    requires forall i :: 0 <= i < |key| ==> key[i] != ' '
    ensures KeyOf(Text(key)) == (key, Plain(""))
  {
    SplitLimitNone(key, {' '}, 2);
  }

  /** Splitting loses nothing: a line with a space is its key, a space and its value. */
  lemma KeyOfRejoin(s: String)
    requires ' ' in s
    ensures var (k, v) := KeyOf(Text(s)); v.Plain? && s == k + " " + v.text
  {
    var i := FindIndex(s, (c: char) => c in {' '});
    assert s[i] == ' ';
    var k, v := s[..i], s[i + 1..];
    assert s == k + [' '] + v;
    SplitLimitFirst(k, ' ', v, {' '});
    assert s[|k| + 1..] == v;
  }

  // ---------------------------------------------------------------------------------------------
  // The feature loop (runner.js:188-261, 385-398): domain commands, firewall, lazy status
  // ---------------------------------------------------------------------------------------------

  /** What the loop does at the level this model keeps. */
  datatype Event =
    | Admin(command: String)
    | DeleteDomain(user: String)
    | FirewallAdd(user: String)
    | FirewallDel(user: String)
    | Other(key: String)

  /** The virtualmin command behind each domain-level key; "" for any other key. */
  function AdminCommand(key: String): String
  {
    match key
    case "modify" => "modify-domain"
    case "rename" => "rename-domain"
    case "disable" => "disable-domain"
    case "enable" => "enable-domain"
    case "backup" => "backup-domain"
    case "restore" => "restore-domain"
    case _ => ""
  }

  /**
   * The loop's state: the events so far, `firewallStatusCache` (`None` until first read), the
   * user name of the domain, and whether a delete has ended the run.
   */
  datatype LoopState = LoopState(events: seq<Event>, cache: Option<bool>, user: String, stopped: bool)

  /** `firewallStatus()`: the cached answer, else `probe` (what iptables reports), then cached. */
  function Status(cache: Option<bool>, probe: bool): (r: (bool, Option<bool>))
    ensures r.1 == Some(r.0)
    ensures cache.Some? ==> r.0 == cache.value
  {
    if cache.Some? then (cache.value, cache) else (probe, Some(probe))
  }

  /** The `new-user` field of a rename request, when present and non-empty. */
  function NewUser(v: FeatureValue): Option<String>
  {
    match v
    case Plain(_) => None
    case Fields(fs) =>
      var u := Get(fs, "new-user");
      if u.Some? && u.value != "" then u else None
  }

  /**
   * A rename: a new user moves the firewall rule (lifted for the old user before the rename and
   * added for the new one after, when the status is on); the refreshed domain data then reports
   * the new user.
   */
  function RenameStep(st: LoopState, v: FeatureValue, probe: bool): LoopState
  {
    var nu := NewUser(v);
    if nu.Some? then
      var (on, cache) := Status(st.cache, probe);
      var lift := if on then [FirewallDel(st.user)] else [];
      var put := if on then [FirewallAdd(nu.value)] else [];
      LoopState(st.events + lift + [Admin("rename-domain")] + put, cache, nu.value, false)
    else LoopState(st.events + [Admin("rename-domain")], st.cache, st.user, false)
  }

  /** One feature: the domain-level part (skipped in a sandbox), then the firewall switch. */
  function Step(st: LoopState, f: Item, sandbox: bool, probe: bool): LoopState
  {
    if st.stopped then st else Apply(st, KeyOf(f).0, KeyOf(f).1, sandbox, probe)
  }

  /** One feature, by key and value, on a run that has not been stopped. */
  function Apply(st: LoopState, key: String, value: FeatureValue, sandbox: bool, probe: bool): LoopState
  {
      if !sandbox && key == "delete" then LoopState(st.events + [DeleteDomain(st.user)], st.cache, st.user, true)
      else if !sandbox && key == "rename" then RenameStep(st, value, probe)
      else if !sandbox && AdminCommand(key) != "" then LoopState(st.events + [Admin(AdminCommand(key))], st.cache, st.user, false)
      else if key == "firewall" && (value == Plain("") || value == Plain("on")) then
        LoopState(st.events + [FirewallAdd(st.user)], Some(true), st.user, false)
      else if key == "firewall" && value == Plain("off") then
        LoopState(st.events + [FirewallDel(st.user)], Some(false), st.user, false)
      else LoopState(st.events + [Other(key)], st.cache, st.user, false)
  }

  /** The loop over `config.features`, from left to right. */
  function Run(fs: seq<Item>, sandbox: bool, probe: bool, start: LoopState): LoopState
  {
    if |fs| == 0 then start
    else Step(Run(fs[..|fs| - 1], sandbox, probe, start), fs[|fs| - 1], sandbox, probe)
  }

  /** The run over one more feature is one more step. */
  lemma RunNext(fs: seq<Item>, i: nat, sandbox: bool, probe: bool, start: LoopState)
    requires i < |fs|
    ensures Run(fs[..i + 1], sandbox, probe, start) == Step(Run(fs[..i], sandbox, probe, start), fs[i], sandbox, probe)
  {
    assert fs[..i + 1][..i] == fs[..i];
  }

  /** A sandboxed run never issues a domain-level command. */
  lemma {:induction false} SandboxNoAdmin(fs: seq<Item>, probe: bool, start: LoopState)
    requires forall e :: e in start.events ==> !e.Admin? && !e.DeleteDomain?
    ensures forall e :: e in Run(fs, true, probe, start).events ==> !e.Admin? && !e.DeleteDomain?
  {
    if |fs| > 0 {
      SandboxNoAdmin(fs[..|fs| - 1], probe, start);
    }
  }

  /** Once a delete has run, nothing more happens: the state stays as the delete left it. */
  lemma {:induction false} DeleteEndsRun(fs: seq<Item>, rest: seq<Item>, sandbox: bool, probe: bool, start: LoopState)
    requires Run(fs, sandbox, probe, start).stopped
    ensures Run(fs + rest, sandbox, probe, start) == Run(fs, sandbox, probe, start)
  {
    if |rest| > 0 {
      assert (fs + rest)[..|fs + rest| - 1] == fs + rest[..|rest| - 1];
      DeleteEndsRun(fs, rest[..|rest| - 1], sandbox, probe, start);
    } else {
      assert fs + rest == fs;
    }
  }

  /**
   * `firewall off` (which `KeyOfWords` splits into that key and value) makes every later status
   * read false without asking iptables.
   */
  lemma FirewallOffCached(st: LoopState, sandbox: bool, probe: bool, later: bool)
    requires !st.stopped
    ensures var next := Apply(st, "firewall", Plain("off"), sandbox, probe);
            Status(next.cache, later).0 == false && next.events == st.events + [FirewallDel(st.user)]
  {
    assert AdminCommand("firewall") == "";
  }

  /** A rename to a new user on a protected domain moves the rule from the old user to the new. */
  lemma RenameMovesRule(st: LoopState, fields: seq<(String, String)>, u: String)
    requires !st.stopped && st.cache == Some(true)
    requires Get(fields, "new-user") == Some(u) && u != ""
    ensures var next := Step(st, Obj("rename", Fields(fields)), false, false);
            next.events == st.events + [FirewallDel(st.user), Admin("rename-domain"), FirewallAdd(u)]
            && next.user == u
  {
  }

  /** The loop as the source runs it: a `return` on delete ends it early. */
  method RunFeatures(fs: seq<Item>, sandbox: bool, probe: bool, user: String) returns (events: seq<Event>, cache: Option<bool>)
    ensures var r := Run(fs, sandbox, probe, LoopState([], None, user, false));
            events == r.events && cache == r.cache
  {
    var st := LoopState([], None, user, false);
    for i := 0 to |fs|
      invariant st == Run(fs[..i], sandbox, probe, LoopState([], None, user, false))
      invariant !st.stopped
    {
      RunNext(fs, i, sandbox, probe, LoopState([], None, user, false));
      st := Step(st, fs[i], sandbox, probe);
      if st.stopped {
        StoppedRun(fs, i + 1, sandbox, probe, LoopState([], None, user, false));
        return st.events, st.cache;
      }
    }
    assert fs[..|fs|] == fs;
    return st.events, st.cache;
  }

  /** Once a prefix of the features has stopped the run, the whole run ends there. */
  lemma StoppedRun(fs: seq<Item>, i: nat, sandbox: bool, probe: bool, start: LoopState)
    requires i <= |fs| && Run(fs[..i], sandbox, probe, start).stopped
    ensures Run(fs, sandbox, probe, start) == Run(fs[..i], sandbox, probe, start)
  {
    DeleteEndsRun(fs[..i], fs[i..], sandbox, probe, start);
    assert fs[..i] + fs[i..] == fs;
  }

  // ---------------------------------------------------------------------------------------------
  // Database name (runner.js:263-338)
  // ---------------------------------------------------------------------------------------------

  /**
   * The name handed to `getDbName` when a database is created: enabling the feature names it
   * after `config.subdomain` (or "db"), `create X` names it `X` verbatim; `None` when there is
   * nothing to create (already enabled and no `create`, or an empty name).
   */
  function DbChoice(enabled: bool, value: String, configSubdomain: String): (r: Option<String>)
    requires value != "off"
    ensures r.Some? ==> r.value != ""
    ensures StartsWith(value, "create ") ==> r == (if |value| > 7 then Some(value[7..]) else None)
    ensures !StartsWith(value, "create ") ==> (r.Some? <==> !enabled)
  {
    var fromEnable := if !enabled then (if configSubdomain != "" then configSubdomain else "db") else "";
    var name := if StartsWith(value, "create ") then value[|"create "|..] else fromEnable;
    if name == "" then None else Some(name)
  }

  /** Enabling a feature on a domain without `config.subdomain` creates the database "db". */
  lemma DbChoiceDefault(value: String)
    requires value != "off" && !StartsWith(value, "create ")
    ensures DbChoice(false, value, "") == Some("db")
  {
  }

  /** `create X` is taken verbatim, untrimmed, unlike the subserver runner which trims it. */
  lemma DbChoiceUntrimmed(enabled: bool, configSubdomain: String)
    ensures DbChoice(enabled, "create  x ", configSubdomain) == Some(" x ")
  {
    assert StartsWith("create  x ", "create ");
    assert "create  x "[7..] == " x ";
  }

  /** The steps of the mysql/postgres feature in the main runner. */
  function DbFeature(e: RunnerSub.Engine, enabled: bool, value: String, configSubdomain: String, user: String,
                     dbOf: (String, String) -> String): (r: seq<RunnerSub.DbStep>)
    ensures value != "off" && DbChoice(enabled, value, configSubdomain).Some? ==>
              |r| > 0 && r[|r| - 1] == RunnerSub.CreateDatabase(dbOf(user, DbChoice(enabled, value, configSubdomain).value))
    ensures value != "off" && DbChoice(enabled, value, configSubdomain).None? ==>
              forall i :: 0 <= i < |r| ==> !r[i].CreateDatabase?
    ensures value == "off" ==> (RunnerSub.DisableFeature in r <==> enabled)
  {
    var n := RunnerSub.EngineName(e);
    if value == "off" then
      [RunnerSub.Say("$> Disabling " + n)]
      + (if enabled then [RunnerSub.DisableFeature] else [RunnerSub.Say("Already disabled")])
    else
      var enabling := if !enabled then [RunnerSub.Say("$> Enabling " + n), RunnerSub.EnableFeature] else [];
      var choice := DbChoice(enabled, value, configSubdomain);
      if choice.None? then enabling
      else
        var name := dbOf(user, choice.value);
        enabling + [RunnerSub.Say("$> Creating db instance " + name + " on " + n), RunnerSub.CreateDatabase(name)]
  }

  // ---------------------------------------------------------------------------------------------
  // The dns feature (runner.js:339-384)
  // ---------------------------------------------------------------------------------------------

  /**
   * The dns feature of the main runner: "off" disables, otherwise the feature is enabled when
   * needed and a list value is normalised entry by entry, as the subserver runner does.
   */
  function DnsFeature(enabled: bool, v: RunnerSub.DnsValue): (r: seq<RunnerSub.DnsStep>)
    ensures v.Entries? ==> |r| > 0 && r[|r| - 1] == RunnerSub.SetRecords(MapSeq(v.items, RunnerSub.NormItem))
    ensures RunnerSub.DisableDns in r <==> v == RunnerSub.Word("off") && enabled
  {
    if v == RunnerSub.Word("off") then
      [RunnerSub.Note("$> Disabling DNS")]
      + (if enabled then [RunnerSub.DisableDns] else [RunnerSub.Note("Already disabled")])
    else
      var opening :=
        if !enabled then [RunnerSub.Note("$> Enabling DNS and applying records"), RunnerSub.EnableDns]
        else [RunnerSub.Note("$> Applying DNS records")];
      match v
      case Word(_) => opening
      case Entries(items) => opening + [RunnerSub.SetRecords(MapSeq(items, RunnerSub.NormItem))]
  }

  // ---------------------------------------------------------------------------------------------
  // Node engine (runner.js:434-456)
  // ---------------------------------------------------------------------------------------------

  /**
   * The webinstall suffix for a node value: "" for latest/current, "@lts" for empty/stable, and
   * "@" + value otherwise; `None` for "off", which removes the engine instead.
   */
  function NodeArg(value: String): (r: Option<String>)
    ensures r.None? <==> value == "off"
    ensures r.Some? && r.value != "" && r.value != "@lts" ==> r.value == "@" + value
  {
    if value == "off" then None
    else if value == "latest" || value == "current" then Some("")
    else if value == "" || value == "stable" then Some("@lts")
    else Some("@" + value)
  }

  /** Every value other than the reserved words reaches the installer with an "@" prefix. */
  lemma NodeArgVersion(value: String)
    requires value !in {"off", "latest", "current", "", "stable"}
    ensures NodeArg(value) == Some("@" + value)
  {
  }

  // ---------------------------------------------------------------------------------------------
  // The older source planner (runner.js:787-866)
  // ---------------------------------------------------------------------------------------------

  /** The older source record: `shallow` instead of `depth`, no rootlesskit. */
  datatype OldSource = OldSource(url: String, stype: String, branch: String, directory: String,
                                 shallow: bool, submodules: bool)

  const OldGitHosts: set<String> := {"github.com", "gitlab.com", "www.github.com", "www.gitlab.com"}

  /** The older default type: as in the subserver runner but without bitbucket, and the same "ssh" test. */
  function OldType(given: String, u: RunnerSub.Url): (r: String)
    ensures r == "clone" || r == "extract"
  {
    if given == "clone" || given == "extract" then given
    else if u.protocol == "ssh" || EndsWith(u.pathname, ".git")
            || (u.hostname in OldGitHosts && !EndsWith(u.pathname, ".zip") && !EndsWith(u.pathname, ".tar.gz"))
    then "clone" else "extract"
  }

  /** Whether the older planner takes the branch (clone) or the sub-directory (extract) from the fragment. */
  predicate OldFromFragment(s: OldSource, dir: String, u: RunnerSub.Url)
  {
    dir == "" && u.hash != "" && (OldType(s.stype, u) == "extract" || s.branch == "")
  }

  /**
   * The older `executedCMD`: clear, then a clone (branch from `branch`, `directory` or the decoded
   * hash; `--depth 1` when shallow) or an extract (only .tar.gz or zip, permissions opened in the
   * unpacking command, the named sub-directory moved up last). As in the subserver planner,
   * `parsed` is `new URL` (None where it throws) and `decode` is `decodeURI` (None where it throws).
   */
  function OldPlan(s: OldSource, configDirectory: String, parsed: Option<RunnerSub.Url>,
                   decode: String -> Option<String>, esc: String -> String): (r: Result<RunnerSub.Plan>)
    ensures r.Err? <==> s.url != "clear"
                        && (!RunnerSub.ValidSourceUrl(s.url) || parsed.None?
                            || (OldFromFragment(s, if s.directory != "" then s.directory else configDirectory, parsed.value)
                                && decode(parsed.value.hash[1..]).None?))
    ensures r.Err? ==> r.error == (if !RunnerSub.ValidSourceUrl(s.url) then RunnerSub.InvalidSourceUrl
                                   else if parsed.None? then RunnerSub.InvalidUrl else RunnerSub.UriMalformed)
    ensures r.Ok? ==> |r.value.commands| >= 1 && r.value.commands[0] == "rm -rf *"
  {
    var dir := if s.directory != "" then s.directory else configDirectory;
    if s.url == "clear" then Ok(RunnerSub.Plan(["rm -rf *"], "Clearing files"))
    else if !RunnerSub.ValidSourceUrl(s.url) then Err(RunnerSub.InvalidSourceUrl)
    else if parsed.None? then Err(RunnerSub.InvalidUrl)
    else
      var u := parsed.value;
      var fromHash := OldFromFragment(s, dir, u);
      var decoded := if fromHash then decode(u.hash[1..]) else Some("");
      if decoded.None? then Err(RunnerSub.UriMalformed)
      else
        var href := if fromHash then u.bare else RunnerSub.Href(u);
        if OldType(s.stype, u) == "clone" then
          var branch := if s.branch != "" then s.branch else if dir != "" then dir else decoded.value;
          var cmd := "git clone " + esc(href)
                     + (if branch != "" then " -b " + esc(branch) else "")
                     + (if s.shallow then " --depth 1" else "")
                     + (if s.submodules then " --recurse-submodules" else "")
                     + " .";
          Ok(RunnerSub.Plan(["rm -rf *", cmd], "Cloning files"))
        else
          var sub := if dir != "" then dir else decoded.value;
          var fetch :=
            if EndsWith(u.pathname, ".tar.gz") then
              ["wget -O _.tar.gz " + esc(href), "tar -xzf _.tar.gz ; rm _.tar.gz ; chmod -R 0750 *"]
            else ["wget -O _.zip " + esc(href), "unzip -q -o _.zip ; rm _.zip ; chmod -R 0750 *"];
          var moveUp := if sub != "" then ["mv " + esc(sub) + "/* .", "rm -rf " + esc(sub)] else [];
          Ok(RunnerSub.Plan(["rm -rf *"] + fetch + moveUp, "Downloading files"))
  }

  /** The older planner treats a `.tar.xz` archive as a zip. */
  lemma OldPlanTarXzAsZip(s: OldSource, configDirectory: String, u: RunnerSub.Url, decode: String -> Option<String>,
                          esc: String -> String)
    requires s.url != "clear" && RunnerSub.ValidSourceUrl(s.url)
    requires OldType(s.stype, u) == "extract" && EndsWith(u.pathname, ".tar.xz")
    requires !OldFromFragment(s, if s.directory != "" then s.directory else configDirectory, u) || decode(u.hash[1..]).Some?
    ensures SourcePlanThird(OldPlan(s, configDirectory, Some(u), decode, esc)) == "unzip -q -o _.zip ; rm _.zip ; chmod -R 0750 *"
  {
    assert !EndsWith(u.pathname, ".tar.gz") by {
      assert u.pathname[|u.pathname| - 1] == 'z';
    }
  }

  /**
   * The older extract moves up the DECODED fragment: with no directory set, the sub-directory is
   * `decodeURI` of the hash, and the archive is fetched without it.
   */
  lemma OldExtractDirDecoded(s: OldSource, u: RunnerSub.Url, decode: String -> Option<String>,
                             esc: String -> String, dir: String)
    requires s.url != "clear" && RunnerSub.ValidSourceUrl(s.url) && OldType(s.stype, u) == "extract"
    requires s.directory == "" && u.hash != "" && decode(u.hash[1..]) == Some(dir) && dir != ""
    ensures var p := OldPlan(s, "", Some(u), decode, esc).value;
            |p.commands| == 5 && p.commands[3] == "mv " + esc(dir) + "/* ." && p.commands[4] == "rm -rf " + esc(dir)
            && EndsWith(p.commands[1], esc(u.bare))
  {
    var p := OldPlan(s, "", Some(u), decode, esc).value;
    var file := if EndsWith(u.pathname, ".tar.gz") then "wget -O _.tar.gz " else "wget -O _.zip ";
    assert p.commands[1] == file + esc(u.bare);
    assert (file + esc(u.bare))[|file|..] == esc(u.bare);
  }

  /** The third command (index 2) of a plan that has at least three ("" otherwise). */
  function SourcePlanThird(r: Result<RunnerSub.Plan>): String
  {
    if r.Ok? && |r.value.commands| >= 3 then r.value.commands[2] else ""
  }

  /**
   * The older firewall bracket is not in a `finally`: when a command fails after the rule was
   * lifted, the rule is not put back. `failAt` is the index of the failing command, if any.
   */
  function OldBracket(firewallOn: bool, commands: seq<String>, failAt: Option<nat>): seq<String>
  {
    var run := if failAt.Some? && failAt.value < |commands| then commands[..failAt.value + 1] else commands;
    var failed := failAt.Some? && failAt.value < |commands|;
    (if firewallOn then ["firewall off"] else []) + run
    + (if firewallOn && !failed then ["firewall on"] else [])
  }

  /** A failing source command leaves a protected user without its firewall rule. */
  lemma OldBracketLeavesRuleOff(commands: seq<String>, k: nat)
    requires k < |commands|
    ensures var t := OldBracket(true, commands, Some(k));
            t[0] == "firewall off" && t[|t| - 1] == commands[k] && |t| == k + 2
  {
  }

  /** Without a failure the rule is lifted first and restored last. */
  lemma OldBracketRestores(commands: seq<String>)
    ensures var t := OldBracket(true, commands, None);
            t == ["firewall off"] + commands + ["firewall on"]
  {
  }
}
