/**
 * `src/executor/unit.js`: the NGINX Unit application record `sandbox` builds from an app's
 * settings and its virtualmin domain record, the settings `unsandbox` recovers from such a record,
 * and the call `setDomain` plans.
 */
module Unit {
  import opened Base
  import opened Strings

  // ---------------------------------------------------------------------------------------------
  // Paths
  // ---------------------------------------------------------------------------------------------

  /** No two slashes in a row. */
  predicate NoRun(s: String)
  {
    forall i :: 0 <= i < |s| - 1 ==> !(s[i] == '/' && s[i + 1] == '/')
  }

  /** The characters of `s` other than `/`, in order. */
  function Unslashed(s: String): String
  {
    Filter(s, (c: char) => c != '/')
  }

  /** `s.replace(/\/+/g, '/')`: every run of slashes becomes one. */
  function Collapse(s: String): (r: String)
    ensures NoRun(r)
    ensures |s| > 0 ==> |r| > 0 && r[0] == s[0]
  {
    if |s| < 2 then s
    else if s[0] == '/' && s[1] == '/' then Collapse(s[1..])
    else [s[0]] + Collapse(s[1..])
  }

  /** Collapsing removes slashes only: the other characters stay, in order. */
  lemma {:induction false} CollapseKeeps(s: String)
    ensures Unslashed(Collapse(s)) == Unslashed(s)
  {
    if |s| >= 2 {
      CollapseKeeps(s[1..]);
      assert s == [s[0]] + s[1..];
      FilterAppend([s[0]], s[1..], (c: char) => c != '/');
      if !(s[0] == '/' && s[1] == '/') {
        FilterAppend([s[0]], Collapse(s[1..]), (c: char) => c != '/');
      }
    }
  }

  /** Collapsing text without a run of slashes changes nothing. */
  lemma {:induction false} CollapseNoRun(s: String)
    requires NoRun(s)
    ensures Collapse(s) == s
  {
    if |s| >= 2 {
      CollapseNoRun(s[1..]);
    }
  }

  /** The working directory's part below the home directory: `app_root`, else the default. */
  function AppDir(appRoot: String, domainname: String, isSub: bool): String
  {
    if appRoot != "" then appRoot
    else if isSub then "domains/" + domainname + "/public_html"
    else "public_html"
  }

  /** The working directory, with a trailing slash cut off. */
  function WorkingDir(user: String, dir: String): (r: String)
    ensures NoRun(r)
    ensures |r| > 1 ==> r[|r| - 1] != '/'
  {
    var wd := Collapse("/home/" + user + "/" + dir);
    if EndsWith(wd, "/") then wd[..|wd| - 1] else wd
  }

  /**
   * The working directory as written: `wd.substring(0, -1)` clamps -1 to 0, so a directory
   * that ends in a slash becomes the empty string.
   */
  function WorkingDirAsWritten(user: String, dir: String): String
  {
    var wd := Collapse("/home/" + user + "/" + dir);
    if EndsWith(wd, "/") then "" else wd
  }

  /** Where Unit writes the app's output: the subdomain's logs, or the user's. */
  function LogBase(user: String, domainname: String, isSub: bool): String
  {
    if isSub then "/home/" + user + "/domains/" + domainname + "/logs" else "/home/" + user + "/logs"
  }

  // ---------------------------------------------------------------------------------------------
  // sandbox
  // ---------------------------------------------------------------------------------------------

  /** An app's settings: `app_root`, `app_start_command`, and `env_var_list` when it is an array. */
  datatype Settings = Settings(appRoot: String, appStartCommand: String, envVarList: Option<seq<String>>)

  /** The Unit application record. */
  datatype App = App(
    kind: String,
    workingDirectory: String,
    executable: String,
    stdout: String,
    stderr: String,
    user: Option<String>,
    group: Option<String>,
    arguments: seq<String>,
    processes: (int, int, int),
    environment: Option<seq<(String, String)>>)

  const EnvSeparators: set<char> := {'=', ' '}

  /** The environment the `forEach` fills: each entry cut at its first `=` or space; entries without one are dropped. */
  function EnvOf(list: seq<String>): seq<(String, String)>
  {
    if |list| == 0 then []
    else
      var m := EnvOf(list[..|list| - 1]);
      var splt := SplitLimit(list[|list| - 1], EnvSeparators, 2);
      if |splt| == 2 then Put(m, splt[0], splt[1]) else m
  }

  /** `Parent domain` set and non-empty in the domain record. */
  predicate IsSub(domain: seq<(String, String)>)
  {
    var p := Get(domain, "Parent domain");
    p.Some? && p.value != ""
  }

  /** The record `sandbox(config, domainname, domain)` returns, with the corrected working directory. */
  function SandboxOf(config: Settings, domainname: String, domain: seq<(String, String)>): (r: App)
    ensures r.kind == "external" && r.executable == "/usr/local/bin/port"
    ensures r.user == r.group == Get(domain, "Username")
    ensures r.arguments == ["bash", "-c", config.appStartCommand]
    ensures r.processes == (1, 0, 900)
    ensures r.environment.Some? <==> config.envVarList.Some? && |config.envVarList.value| > 0
  {
    var user := Get(domain, "Username");
    var home := user.GetOr("undefined");
    var logbase := LogBase(home, domainname, IsSub(domain));
    App("external", WorkingDir(home, AppDir(config.appRoot, domainname, IsSub(domain))),
      "/usr/local/bin/port", logbase + "/unit_stdout_log", logbase + "/unit_stderr_log",
      user, user, ["bash", "-c", config.appStartCommand], (1, 0, 900),
      if config.envVarList.Some? && |config.envVarList.value| > 0 then Some(EnvOf(config.envVarList.value)) else None)
  }

  /** `sandbox`: the record is built, then the environment is filled entry by entry. */
  method Sandbox(config: Settings, domainname: String, domain: seq<(String, String)>) returns (result: App)
    ensures result == SandboxOf(config, domainname, domain)
  {
    var username := Get(domain, "Username");
    var home := username.GetOr("undefined");
    var isSub := IsSub(domain);
    var wd := WorkingDir(home, AppDir(config.appRoot, domainname, isSub));
    var logbase := LogBase(home, domainname, isSub);
    result := App("external", wd, "/usr/local/bin/port", logbase + "/unit_stdout_log",
      logbase + "/unit_stderr_log", username, username, ["bash", "-c", config.appStartCommand],
      (1, 0, 900), None);
    if config.envVarList.Some? && |config.envVarList.value| > 0 {
      var list := config.envVarList.value;
      var envMap: seq<(String, String)> := [];
      for i := 0 to |list|
        invariant envMap == EnvOf(list[..i])
      {
        assert list[..i + 1][..i] == list[..i];
        var splt := SplitLimit(list[i], EnvSeparators, 2);
        if |splt| == 2 {
          envMap := Put(envMap, splt[0], splt[1]);
        }
      }
      assert list[..|list|] == list;
      result := result.(environment := Some(envMap));
    }
  }

  // ---------------------------------------------------------------------------------------------
  // unsandbox and setDomain
  // ---------------------------------------------------------------------------------------------

  /** What `unsandbox` returns: `{}`, or the recovered settings (`arguments[2]` may be missing). */
  datatype Recovered = NoSettings | Recovered(appStartCommand: Option<String>, appRoot: String, envVarList: seq<String>)

  /** The environment as `k=v` strings. */
  function EnvStrings(env: seq<(String, String)>): (r: seq<String>)
    ensures |r| == |env|
  {
    if |env| == 0 then [] else EnvStrings(env[..|env| - 1]) + [env[|env| - 1].0 + "=" + env[|env| - 1].1]
  }

  /** The path below `/home/<user>/`: the pieces of the working directory after the third. */
  function AppRootOf(wd: String): String
  {
    var parts := Split(wd, '/');
    if |parts| > 3 then Join(parts[3..], "/") else ""
  }

  /** `unsandbox(config)`: `{}` for a missing record or working directory. */
  function Unsandbox(config: Option<App>): (r: Recovered)
    ensures r == NoSettings <==> config.None? || config.value.workingDirectory == ""
  {
    if config.None? || config.value.workingDirectory == "" then NoSettings
    else
      var c := config.value;
      Recovered(
        if |c.arguments| > 2 then Some(c.arguments[2]) else None,
        AppRootOf(c.workingDirectory),
        if c.environment.Some? then EnvStrings(ObjectOrder(c.environment.value)) else [])
  }

  /** The request `setDomain` makes of Unit. */
  datatype UnitCall = Delete(path: String) | Write(path: String, app: App)

  /** `setDomain`: no start command deletes the app; otherwise its sandboxed record is written. */
  function SetDomain(domainname: String, config: Settings, domaindata: seq<(String, String)>): (r: UnitCall)
    ensures r.path == "/config/applications/" + domainname
    ensures r.Delete? <==> config.appStartCommand == ""
    ensures r.Write? ==> r.app.arguments == ["bash", "-c", config.appStartCommand]
  {
    if config.appStartCommand == "" then Delete("/config/applications/" + domainname)
    else Write("/config/applications/" + domainname, SandboxOf(config, domainname, domaindata))
  }

  // ---------------------------------------------------------------------------------------------
  // Round trip
  // ---------------------------------------------------------------------------------------------

  /** A relative directory in normal form: non-empty, no slash at either end, no run of slashes. */
  predicate NormalDir(d: String)
  {
    |d| > 0 && d[0] != '/' && d[|d| - 1] != '/' && NoRun(d)
  }

  /** An environment variable name without `=` or a space. */
  predicate PlainKey(k: String)
  {
    forall j :: 0 <= j < |k| ==> k[j] !in EnvSeparators
  }

  /** A user name that names one home directory. */
  predicate PlainUser(u: String)
  {
    |u| > 0 && '/' !in u
  }

  lemma HomePathNoRun(u: String, d: String)
    requires PlainUser(u) && NormalDir(d)
    ensures NoRun("/home/" + u + "/" + d)
  {
    var s := "/home/" + u + "/" + d;
    forall i | 0 <= i < |s| - 1
      ensures !(s[i] == '/' && s[i + 1] == '/')
    {
      if i < 6 + |u| {
        assert i + 1 < 6 || 6 <= i + 1 < 6 + |u| || i + 1 == 6 + |u|;
        if 6 <= i + 1 < 6 + |u| {
          assert s[i + 1] == u[i + 1 - 6];
        } else if i + 1 == 6 + |u| {
          assert s[i] == u[|u| - 1];
        }
      } else if i > 6 + |u| {
        assert s[i] == d[i - 7 - |u|] && s[i + 1] == d[i - 6 - |u|];
      } else {
        assert s[i + 1] == d[0];
      }
    }
  }

  /** The home path of a normal directory, with or without a trailing slash, has no run to collapse. */
  lemma HomeCollapse(u: String, d: String)
    requires PlainUser(u) && NormalDir(d)
    ensures var p := "/home/" + u + "/" + d;
      Collapse(p) == p && Collapse("/home/" + u + "/" + (d + "/")) == p + "/"
      && !EndsWith(p, "/") && EndsWith(p + "/", "/")
  {
    var p := "/home/" + u + "/" + d;
    HomePathNoRun(u, d);
    assert p[|p| - 1] == d[|d| - 1];
    assert NoRun(p + "/");
    assert "/home/" + u + "/" + (d + "/") == p + "/";
    CollapseNoRun(p + "/");
    CollapseNoRun(p);
  }

  /** For a normal directory, the working directory is `/home/<user>/<dir>` verbatim. */
  lemma WorkingDirNormal(u: String, d: String)
    requires PlainUser(u) && NormalDir(d)
    ensures WorkingDir(u, d) == "/home/" + u + "/" + d
  {
    HomeCollapse(u, d);
  }

  /** A trailing slash on the directory is dropped: it names the same working directory. */
  lemma WorkingDirTrailing(u: String, d: String)
    requires PlainUser(u) && NormalDir(d)
    ensures WorkingDir(u, d + "/") == WorkingDir(u, d)
  {
    var p := "/home/" + u + "/" + d;
    HomeCollapse(u, d);
    assert (p + "/")[..|p|] == p;
  }

  /** `unsandbox` reads the directory back from a working directory in normal form. */
  lemma AppRootBack(u: String, d: String)
    requires PlainUser(u) && NormalDir(d)
    ensures AppRootOf("/home/" + u + "/" + d) == d
  {
    HomeShape(u, d);
    assert '/' !in "home";
    SplitThree("", "home", u, d, '/');
    var parts := Split("/home/" + u + "/" + d, '/');
    assert parts[3..] == Split(d, '/');
    JoinSplit(d, '/');
  }

  lemma HomeShape(u: String, d: String)
    ensures "/home/" + u + "/" + d == "" + ['/'] + ("home" + ['/'] + (u + ['/'] + d))
  {
    assert "/home/" == "" + ['/'] + "home" + ['/'];
    assert "/" == ['/'];
  }

  /** Rendering an environment as `k=v` strings and splitting them again gives it back. */
  lemma {:induction false} EnvBack(env: seq<(String, String)>)
    requires DistinctKeys(env)
    requires forall i :: 0 <= i < |env| ==> PlainKey(env[i].0)
    ensures EnvOf(EnvStrings(env)) == env
  {
    if |env| > 0 {
      var init := env[..|env| - 1];
      var last := env[|env| - 1];
      EnvBack(init);
      assert EnvStrings(env) == EnvStrings(init) + [last.0 + ['='] + last.1];
      EnvLast(init, EnvStrings(init), last.0, last.1);
      assert init + [last] == env;
    }
  }

  /** One more entry, under a key not used before, is appended after the others. */
  lemma EnvLast(init: seq<(String, String)>, strs: seq<String>, k: String, v: String)
    requires EnvOf(strs) == init
    requires PlainKey(k)
    requires forall i :: 0 <= i < |init| ==> init[i].0 != k
    ensures EnvOf(strs + [k + ['='] + v]) == init + [(k, v)]
  {
    SplitLimitFirst(k, '=', v, EnvSeparators);
    EnvOfSnoc(strs, k + ['='] + v, k, v);
    PutFresh(init, k, v);
  }

  /** An entry that splits in two assigns its value to its key. */
  lemma EnvOfSnoc(list: seq<String>, x: String, k: String, v: String)
    requires SplitLimit(x, EnvSeparators, 2) == [k, v]
    ensures EnvOf(list + [x]) == Put(EnvOf(list), k, v)
  {
    assert (list + [x])[..|list|] == list;
  }

  /**
   * Sandboxing settings in normal form and unsandboxing the record gives the settings back: the
   * start command, the directory (the default one when `app_root` is empty), and the
   * environment strings.
   */
  lemma SandboxRoundTrip(config: Settings, domainname: String, domain: seq<(String, String)>, env: seq<(String, String)>)
    requires Get(domain, "Username").Some? && PlainUser(Get(domain, "Username").value)
    requires NormalDir(AppDir(config.appRoot, domainname, IsSub(domain)))
    requires DistinctKeys(env) && PlainKeys(env)
    requires forall i :: 0 <= i < |env| ==> PlainKey(env[i].0)
    requires config.envVarList == Some(EnvStrings(env))
    ensures Unsandbox(Some(SandboxOf(config, domainname, domain)))
      == Recovered(Some(config.appStartCommand), AppDir(config.appRoot, domainname, IsSub(domain)), EnvStrings(env))
  {
    var u := Get(domain, "Username").value;
    var d := AppDir(config.appRoot, domainname, IsSub(domain));
    var app := SandboxOf(config, domainname, domain);
    WorkingDirNormal(u, d);
    assert app.workingDirectory == "/home/" + u + "/" + d;
    AppRootBack(u, d);
    if |env| > 0 {
      EnvBack(env);
      assert app.environment == Some(env);
      ObjectOrderPlain(env);
    }
    UnsandboxSome(app);
  }

  /** What `unsandbox` reads from a record with a working directory. */
  lemma UnsandboxSome(c: App)
    requires c.workingDirectory != ""
    ensures Unsandbox(Some(c)) == Recovered(
              if |c.arguments| > 2 then Some(c.arguments[2]) else None,
              AppRootOf(c.workingDirectory),
              if c.environment.Some? then EnvStrings(ObjectOrder(c.environment.value)) else [])
  {
  }

  /**
   * As written, an `app_root` that ends in a slash gives an empty working directory, and
   * `unsandbox` then recovers nothing from the record: the start command and the environment
   * are lost with it.
   */
  lemma TrailingSlashAsWritten(u: String, d: String)
    requires PlainUser(u) && NormalDir(d)
    ensures WorkingDirAsWritten(u, d + "/") == ""
    ensures WorkingDirAsWritten(u, d) == "/home/" + u + "/" + d
  {
    HomeCollapse(u, d);
  }

  /** The corrected directory reads back without the slash, so `unsandbox` recovers the settings. */
  lemma TrailingSlashFixed(u: String, d: String)
    requires PlainUser(u) && NormalDir(d)
    ensures AppRootOf(WorkingDir(u, d + "/")) == d
  {
    WorkingDirTrailing(u, d);
    WorkingDirNormal(u, d);
    AppRootBack(u, d);
  }
}
