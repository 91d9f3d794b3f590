/**
 * The planning decisions of `runConfigSubdomain` (src/executor/runnersub.js): the database name
 * prefix of a subserver, the MySQL/PostgreSQL feature steps, the rename guard, the DNS record
 * normalisation and the DNS feature steps, the http/www/root options, the source-URL command
 * planner, and the order in which one run touches the firewall and the features.
 *
 * The virtualmin, nginx, named and ssh calls are not made here: each decision yields the steps it
 * would take. `getDbName` and `escapeShell` are parameters (they live outside this model).
 */
module RunnerSub {
  import opened Base
  import opened Strings

  // ---------------------------------------------------------------------------------------------
  // Database names (runnersub.js:41-42 and the `create`/`drop` branches)
  // ---------------------------------------------------------------------------------------------

  /**
   * `domainprefix`: "db" for the root domain or a server without a parent, otherwise the
   * subdomain with `|parent| + 1` characters cut from its end (`slice(0, -(len + 1))`, which
   * yields "" when the subdomain is not longer than that).
   */
  function DomainPrefix(stillroot: bool, parent: String, subdomain: String): (r: String)
    ensures stillroot || parent == "" ==> r == "db"
    ensures !stillroot && parent != "" ==> StartsWith(subdomain, r)
    ensures !stillroot && parent != "" && |subdomain| <= |parent| + 1 ==> r == ""
  {
    if stillroot || parent == "" then "db"
    else subdomain[..if |subdomain| > |parent| + 1 then |subdomain| - |parent| - 1 else 0]
  }

  /** A subdomain `p.<parent>` gets the prefix `p`. */
  lemma PrefixOfChild(p: String, parent: String)
    requires parent != ""
    ensures DomainPrefix(false, parent, p + "." + parent) == p
  {
    var s := p + "." + parent;
    assert |s| - |parent| - 1 == |p|;
    if |p| == 0 {
      assert s[..0] == p;
    } else {
      assert s[..|p|] == p;
    }
  }

  /** The argument handed to `getDbName`: the bare name for the prefix "db", else `prefix_name`. */
  function DbSuffix(prefix: String, name: String): String
  {
    if prefix == "db" then name else prefix + "_" + name
  }

  /** A database of the root domain keeps the bare name; one of `p.<parent>` is named `p_<name>`. */
  lemma DbSuffixOfDomain(p: String, parent: String, name: String)
    requires parent != "" && p != "db"
    ensures DbSuffix(DomainPrefix(true, parent, p + "." + parent), name) == name
    ensures DbSuffix(DomainPrefix(false, parent, p + "." + parent), name) == p + "_" + name
  {
    PrefixOfChild(p, parent);
  }

  /**
   * A subserver literally called `db.<parent>` gets the prefix "db" and so the same database
   * names as the root domain.
   */
  lemma DbSubdomainSharesRootNames(parent: String, name: String)
    requires parent != ""
    ensures DbSuffix(DomainPrefix(false, parent, "db." + parent), name)
         == DbSuffix(DomainPrefix(true, parent, "db." + parent), name)
  {
    PrefixOfChild("db", parent);
  }

  // ---------------------------------------------------------------------------------------------
  // The mysql/mariadb and postgres/postgresql feature (runnersub.js:92-228)
  // ---------------------------------------------------------------------------------------------

  datatype Engine = MySql | Postgres

  /** The engine name in log lines, and the feature word the hint suggests. */
  function EngineName(e: Engine): String
  {
    match e
    case MySql => "MySQL"
    case Postgres => "PostgreSQL"
  }

  function EngineWord(e: Engine): String
  {
    match e
    case MySql => "mysql"
    case Postgres => "postgresql"
  }

  /** One step of the feature: a log line or a virtualmin/ssh action. */
  datatype DbStep =
    | Say(text: String)
    | DisableFeature
    | EnableFeature
    | LoadPassword
    | CreateDatabase(name: String)
    | DeleteDatabase(name: String)
    | ModifyPass(pass: String)

  /** The steps taken, and the value of the run-wide `dbname` afterwards. */
  datatype DbOutcome = DbOutcome(steps: seq<DbStep>, dbname: String)

  /** `value.substr(|word|).trim()` for a value starting with `word`. */
  function Argument(value: String, word: String): String
    requires StartsWith(value, word)
  {
    Trim(value[|word|..])
  }

  /**
   * The database feature for an enabled parent: "off" disables (never in a sandbox), a disabled
   * subserver is enabled first and then gets its database created, `create X` creates `X`,
   * and otherwise `drop X`, `modify-pass P` or the bare word act, except in a sandbox.
   */
  function SqlFeature(e: Engine, stillroot: bool, sandbox: bool, enabled: bool, subenabled: bool,
                      value: String, prefix: String, user: String, dbname: String,
                      dbOf: (String, String) -> String): DbOutcome
  {
    var n := EngineName(e);
    if !stillroot && !enabled then
      DbOutcome([Say("Problem: Can't manage " + n + " while it is disabled in parent domain")], dbname)
    else if value == "off" then
      var rest :=
        if sandbox then [Say("$> turning off " + n + " is denied")]
        else if subenabled then [DisableFeature]
        else [Say("Already disabled")];
      DbOutcome([Say("$> Disabling " + n)] + rest, dbname)
    else
      var enabling := if !subenabled then [Say("$> Enabling " + n), EnableFeature, LoadPassword] else [];
      var creating := StartsWith(value, "create ");
      var name := if creating then dbOf(user, DbSuffix(prefix, Argument(value, "create "))) else dbname;
      if !subenabled || creating then
        DbOutcome(enabling + [Say("$> Creating db instance " + name + " on " + n), CreateDatabase(name)], name)
      else if sandbox && value != "" then
        DbOutcome([Say("$> managing " + n + " database is denied")], dbname)
      else if StartsWith(value, "drop ") then
        var dropped := dbOf(user, DbSuffix(prefix, Argument(value, "drop ")));
        DbOutcome([DeleteDatabase(dropped)], dropped)
      else if StartsWith(value, "modify-pass ") then
        var pass := Argument(value, "modify-pass ");
        DbOutcome(if pass != "" then [ModifyPass(pass)] else [], dbname)
      else if value == "" then
        DbOutcome([Say("$> " + n + " is already initialized. To create another database, use \""
                       + EngineWord(e) + " create dbname\"")], dbname)
      else DbOutcome([], dbname)
  }

  /** A step that removes or changes something the subserver already has. */
  predicate Destructive(s: DbStep)
  {
    s.DisableFeature? || s.DeleteDatabase? || s.ModifyPass?
  }

  /** In a sandbox the feature never disables, drops or re-keys anything. */
  lemma SqlSandboxSafe(e: Engine, stillroot: bool, enabled: bool, subenabled: bool, value: String,
                       prefix: String, user: String, dbname: String, dbOf: (String, String) -> String)
    ensures forall s :: s in SqlFeature(e, stillroot, true, enabled, subenabled, value, prefix, user, dbname, dbOf).steps
              ==> !Destructive(s)
  {
    var o := SqlFeature(e, stillroot, true, enabled, subenabled, value, prefix, user, dbname, dbOf);
    if (stillroot || enabled) && value != "off" {
      if !subenabled || StartsWith(value, "create ") {
        assert forall s :: s in o.steps ==> s.Say? || s.EnableFeature? || s.LoadPassword? || s.CreateDatabase?;
      } else if value == "" {
        assert |o.steps| == 1 && o.steps[0].Say?;
      } else {
        assert |o.steps| == 1 && o.steps[0].Say?;
      }
    }
  }

  /** With the parent's feature off, a subserver only gets the "Problem" line. */
  lemma SqlParentDisabled(e: Engine, sandbox: bool, subenabled: bool, value: String, prefix: String,
                          user: String, dbname: String, dbOf: (String, String) -> String)
    ensures SqlFeature(e, false, sandbox, false, subenabled, value, prefix, user, dbname, dbOf)
         == DbOutcome([Say("Problem: Can't manage " + EngineName(e) + " while it is disabled in parent domain")], dbname)
  {
  }

  /**
   * `create X` ends with the creation of `getDbName(user, prefix_X)` (the bare `X` for the root
   * domain), which becomes the run's `dbname`.
   */
  lemma SqlCreateNamed(e: Engine, stillroot: bool, sandbox: bool, enabled: bool, subenabled: bool,
                       x: String, prefix: String, user: String, dbname: String,
                       dbOf: (String, String) -> String)
    requires stillroot || enabled
    ensures var o := SqlFeature(e, stillroot, sandbox, enabled, subenabled, "create " + x, prefix, user, dbname, dbOf);
            o.dbname == dbOf(user, DbSuffix(prefix, Trim(x)))
            && |o.steps| > 0 && o.steps[|o.steps| - 1] == CreateDatabase(o.dbname)
  {
    var v := "create " + x;
    StartsWithConcat("create ", x);
    assert v[|"create "|..] == x;
    assert v != "off" by { assert |v| >= 7; }
  }

  /** `drop X` on an enabled subserver outside a sandbox deletes exactly that one database. */
  lemma SqlDropNamed(e: Engine, stillroot: bool, enabled: bool, x: String, prefix: String,
                     user: String, dbname: String, dbOf: (String, String) -> String)
    requires stillroot || enabled
    ensures var o := SqlFeature(e, stillroot, false, enabled, true, "drop " + x, prefix, user, dbname, dbOf);
            o.steps == [DeleteDatabase(dbOf(user, DbSuffix(prefix, Trim(x))))]
  {
    var v := "drop " + x;
    StartsWithConcat("drop ", x);
    assert v[|"drop "|..] == x;
    assert !StartsWith(v, "create ") by { assert v[4] == ' '; }
    assert v != "off" by { assert |v| >= 5; }
  }

  // ---------------------------------------------------------------------------------------------
  // The rename guard (runnersub.js:49-76)
  // ---------------------------------------------------------------------------------------------

  /** The `new-domain` and `new-user` fields of a rename request, when they are strings. */
  datatype RenameArgs = RenameArgs(newDomain: Option<String>, newUser: Option<String>)

  /**
   * The subserver name after a `rename` feature. Only a non-root run outside a sandbox renames;
   * the new name must end with "." + parent, and renaming the user always fails.
   */
  function Rename(stillroot: bool, sandbox: bool, args: RenameArgs, subdomain: String, parent: String): (r: Result<String>)
    ensures r.Ok? <==> stillroot || sandbox
                       || ((args.newDomain.None? || EndsWith(args.newDomain.value, "." + parent)) && args.newUser.None?)
  {
    if stillroot || sandbox then Ok(subdomain)
    else if args.newDomain.Some? && !EndsWith(args.newDomain.value, "." + parent) then
      Err("The new domain name must ends with parent domain")
    else if args.newUser.Some? then Err("Can't rename username for subserver")
    else Ok(if args.newDomain.Some? && args.newDomain.value != "" then args.newDomain.value else subdomain)
  }

  /** A subserver of `parent` stays a subserver of `parent` across any accepted rename. */
  lemma RenameStaysUnderParent(stillroot: bool, sandbox: bool, args: RenameArgs, subdomain: String, parent: String)
    requires EndsWith(subdomain, "." + parent)
    requires Rename(stillroot, sandbox, args, subdomain, parent).Ok?
    ensures EndsWith(Rename(stillroot, sandbox, args, subdomain, parent).value, "." + parent)
  {
  }

  // ---------------------------------------------------------------------------------------------
  // DNS record normalisation (runnersub.js:345-360)
  // ---------------------------------------------------------------------------------------------

  /** An entry of the `dns` list: a text line, a normalised record, or any other value. */
  datatype DnsItem =
    | Line(text: String)
    | Record(action: String, rtype: String, domain: String, value: String)
    | Other

  const Space: set<char> := {' '}

  /** A line with its action: "add " is put in front unless it starts with "add " or "del ". */
  function WithAction(s: String): (t: String)
    ensures StartsWith(t, "add ") || StartsWith(t, "del ")
  {
    if StartsWith(s, "add ") || StartsWith(s, "del ") then s
    else
      StartsWithConcat("add ", s);
      "add " + s
  }

  /** The action of a record: "del" when the first word lower-cases to "del", else "add". */
  function ActionOf(word: String): String
  {
    if Lower(word) == "del" then "del" else "add"
  }

  lemma ActionWords()
    ensures ActionOf("del") == "del" && ActionOf("add") == "add"
  {
    assert Lower("del") == "del";
    assert Lower("add")[0] == 'a';
  }

  /**
   * A text entry after the loop: when it splits into four parts at spaces it becomes a record
   * (action, type and domain lower-cased, the rest verbatim); otherwise it keeps its action prefix.
   */
  function NormLine(s: String): DnsItem
  {
    var t := WithAction(s);
    var p := SplitLimit(t, Space, 4);
    if |p| == 4 then Record(ActionOf(p[0]), Lower(p[1]), Lower(p[2]), p[3]) else Line(t)
  }

  /** One entry after the loop: lines are normalised, records and non-strings left alone. */
  function NormItem(x: DnsItem): DnsItem
  {
    match x
    case Line(s) => NormLine(s)
    case _ => x
  }

  /** A line that carries its action splits into that action word and the rest. */
  lemma ActionWord(t: String)
    requires StartsWith(t, "add ") || StartsWith(t, "del ")
    ensures SplitLimit(t, Space, 4) == [t[..3]] + SplitLimit(t[4..], Space, 3)
  {
    assert t == t[..3] + [' '] + t[4..];
    SplitLimitCons(t[..3], ' ', t[4..], Space, 4);
  }

  /** The record's action is "del" exactly when the line started with "del " (case matters). */
  lemma ActionOfLine(t: String)
    requires StartsWith(t, "add ") || StartsWith(t, "del ")
    ensures ActionOf(t[..3]) == "del" <==> StartsWith(t, "del ")
  {
    ActionWords();
    assert t[..3] == t[..4][..3];
    if !StartsWith(t, "del ") {
      assert t[..4] == "add ";
    }
  }

  lemma NormAction(s: String)
    requires NormLine(s).Record?
    ensures NormLine(s).action == "del" <==> StartsWith(s, "del ")
  {
    var t := WithAction(s);
    ActionWord(t);
    ActionOfLine(t);
    if !(StartsWith(s, "add ") || StartsWith(s, "del ")) {
      assert t[0] == 'a';
    }
  }

  /** Three space-free words and a remainder split into exactly those four parts. */
  lemma FourParts(w: String, rtype: String, name: String, v: String)
    requires forall i :: 0 <= i < |w| ==> w[i] != ' '
    requires forall i :: 0 <= i < |rtype| ==> rtype[i] != ' '
    requires forall i :: 0 <= i < |name| ==> name[i] != ' '
    ensures SplitLimit(w + " " + rtype + " " + name + " " + v, Space, 4) == [w, rtype, name, v]
  {
    var line := w + [' '] + (rtype + [' '] + (name + [' '] + v));
    assert w + " " + rtype + " " + name + " " + v == line;
    FourPartsAt(w, rtype, name, v, Space, 4);
  }

  lemma {:induction false} FourPartsAt(w: String, rtype: String, name: String, v: String, seps: set<char>, n: nat)
    requires ' ' in seps && n == 4
    requires forall i :: 0 <= i < |w| ==> w[i] !in seps
    requires forall i :: 0 <= i < |rtype| ==> rtype[i] !in seps
    requires forall i :: 0 <= i < |name| ==> name[i] !in seps
    ensures SplitLimit(w + [' '] + (rtype + [' '] + (name + [' '] + v)), seps, n) == [w, rtype, name, v]
  {
    var r1 := rtype + [' '] + (name + [' '] + v);
    ThreeParts(rtype, name, v, seps, n - 1);
    SplitLimitCons(w, ' ', r1, seps, n);
    ConsThree(w, rtype, name, v);
  }

  lemma ConsThree(a: String, b: String, c: String, d: String)
    ensures [a] + [b, c, d] == [a, b, c, d]
  {
  }

  lemma {:induction false} ThreeParts(rtype: String, name: String, v: String, seps: set<char>, n: nat)
    requires ' ' in seps && n == 3
    requires forall i :: 0 <= i < |rtype| ==> rtype[i] !in seps
    requires forall i :: 0 <= i < |name| ==> name[i] !in seps
    ensures SplitLimit(rtype + [' '] + (name + [' '] + v), seps, n) == [rtype, name, v]
  {
    SplitLimitFirst(name, ' ', v, seps);
    SplitLimitCons(rtype, ' ', name + [' '] + v, seps, n);
  }

  /** A string whose first space follows `x` starts with `w + " "` only for `w == x`. */
  lemma FirstWord(x: String, rest: String, w: String)
    requires forall i :: 0 <= i < |x| ==> x[i] != ' '
    requires forall i :: 0 <= i < |w| ==> w[i] != ' '
    ensures StartsWith(x + " " + rest, w + " ") ==> w == x
  {
    var s := x + " " + rest;
    assert s == x + (" " + rest);
    IndexOfCharAfter(x, " " + rest, ' ');
    if StartsWith(s, w + " ") {
      var tail := s[|w| + 1..];
      assert s == w + (" " + tail);
      IndexOfCharAfter(w, " " + tail, ' ');
      assert w == s[..|w|];
    }
  }

  /** `del type name value…`: a deletion of that record, the value kept whole. */
  lemma NormDelete(rtype: String, name: String, v: String)
    requires forall i :: 0 <= i < |rtype| ==> rtype[i] != ' '
    requires forall i :: 0 <= i < |name| ==> name[i] != ' '
    ensures NormLine("del " + rtype + " " + name + " " + v) == Record("del", Lower(rtype), Lower(name), v)
  {
    var s := "del " + rtype + " " + name + " " + v;
    assert s[..4] == "del ";
    assert WithAction(s) == s;
    assert s == "del" + " " + rtype + " " + name + " " + v;
    FourParts("del", rtype, name, v);
    var p := SplitLimit(s, Space, 4);
    assert p == ["del", rtype, name, v];
    ActionWords();
    assert NormLine(s) == Record(ActionOf(p[0]), Lower(p[1]), Lower(p[2]), p[3]);
  }

  /** A line without an action word: an addition of that record. */
  lemma NormDefaultAdd(rtype: String, name: String, v: String)
    requires forall i :: 0 <= i < |rtype| ==> rtype[i] != ' '
    requires forall i :: 0 <= i < |name| ==> name[i] != ' '
    requires rtype != "add" && rtype != "del"
    ensures NormLine(rtype + " " + name + " " + v) == Record("add", Lower(rtype), Lower(name), v)
  {
    var s := rtype + " " + name + " " + v;
    assert s == rtype + " " + (name + " " + v);
    FirstWord(rtype, name + " " + v, "add");
    FirstWord(rtype, name + " " + v, "del");
    assert WithAction(s) == "add " + s;
    assert "add " + s == "add" + " " + rtype + " " + name + " " + v;
    FourParts("add", rtype, name, v);
    var p := SplitLimit("add " + s, Space, 4);
    assert p == ["add", rtype, name, v];
    ActionWords();
    assert NormLine(s) == Record(ActionOf(p[0]), Lower(p[1]), Lower(p[2]), p[3]);
  }

  /** Normalising again changes nothing: the loop may safely see its own output. */
  lemma NormIdempotent(x: DnsItem)
    ensures NormItem(NormItem(x)) == NormItem(x)
  {
    if x.Line? {
      var t := WithAction(x.text);
      assert WithAction(t) == t;
    }
  }

  /** The loop over `value`: every entry is normalised where it stands. */
  method NormalizeRecords(value: array<DnsItem>)
    modifies value
    ensures value[..] == MapSeq(old(value[..]), NormItem)
  {
    UpdateEach(value, NormItem);
  }

  /** `for (i …) value[i] = f(value[i])`. */
  method UpdateEach(value: array<DnsItem>, f: DnsItem -> DnsItem)
    modifies value
    ensures value[..] == MapSeq(old(value[..]), f)
  {
    for i := 0 to value.Length
      invariant forall j :: 0 <= j < i ==> value[j] == f(old(value[j]))
      invariant forall j :: i <= j < value.Length ==> value[j] == old(value[j])
    {
      value[i] := f(value[i]);
    }
  }

  // ---------------------------------------------------------------------------------------------
  // The dns feature (runnersub.js:315-361)
  // ---------------------------------------------------------------------------------------------

  /** The `dns` feature's value: a text word (such as "off") or a list of entries. */
  datatype DnsValue = Word(word: String) | Entries(items: seq<DnsItem>)

  datatype DnsStep = Note(text: String) | DisableDns | EnableDns | SetRecords(items: seq<DnsItem>)

  /**
   * The "off" branch. As written, the sandbox denial is followed by an `if` rather than an
   * `else if`, so a sandboxed run still disables an enabled feature; `fixed` chains them.
   */
  function DnsOff(sandbox: bool, subenabled: bool, fixed: bool): seq<DnsStep>
  {
    var denied := if sandbox then [Note("$> turning off DNS feature is denied")] else [];
    var rest := if subenabled then [DisableDns] else [Note("Already disabled")];
    if fixed && sandbox then denied else denied + rest
  }

  /** The dns feature: off, enable when needed, then (root domain only) apply the normalised list. */
  function DnsFeature(stillroot: bool, sandbox: bool, enabled: bool, subenabled: bool, v: DnsValue, fixed: bool): seq<DnsStep>
  {
    if !stillroot && !enabled then [Note("Problem: Can't manage DNS while it is disabled in parent domain")]
    else if v == Word("off") then [Note("$> Disabling DNS feature")] + DnsOff(sandbox, subenabled, fixed)
    else
      var enabling := if !subenabled then [Note("$> Enabling DNS feature"), EnableDns] else [];
      match v
      case Word(_) => enabling
      case Entries(items) =>
        if !stillroot then enabling + [Note("Problem: Can't manage DNS records on subdomain")]
        else enabling + [Note("$> Applying DNS records"), SetRecords(MapSeq(items, NormItem))]
  }

  /** As written: a sandboxed "dns off" logs the denial and then disables DNS anyway. */
  lemma DnsOffSandboxAsWritten(stillroot: bool, enabled: bool)
    requires stillroot || enabled
    ensures DnsFeature(stillroot, true, enabled, true, Word("off"), false)
         == [Note("$> Disabling DNS feature"), Note("$> turning off DNS feature is denied"), DisableDns]
  {
  }

  /** Corrected: a sandboxed run never disables DNS, whatever it asks for. */
  lemma DnsSandboxFixed(stillroot: bool, enabled: bool, subenabled: bool, v: DnsValue)
    ensures DisableDns !in DnsFeature(stillroot, true, enabled, subenabled, v, true)
  {
  }

  /** Records are only written for the root domain, and then as the normalised list. */
  lemma DnsRecordsOnlyAtRoot(stillroot: bool, sandbox: bool, enabled: bool, subenabled: bool, items: seq<DnsItem>, fixed: bool)
    ensures var steps := DnsFeature(stillroot, sandbox, enabled, subenabled, Entries(items), fixed);
            (SetRecords(MapSeq(items, NormItem)) in steps <==> stillroot)
            && forall s :: s in steps && s.SetRecords? ==> s.items == MapSeq(items, NormItem)
  {
  }

  // ---------------------------------------------------------------------------------------------
  // http, www and root (runnersub.js:422-449, 574-592)
  // ---------------------------------------------------------------------------------------------

  /**
   * Corrected, the http feature: `parseInt(value)` (no radix) must be 1 or 3; an equal current
   * value leaves the config alone (`Ok(None)`), any other is applied (`Ok(Some(v))`).
   */
  function HttpOption(value: String, current: Option<int>): (r: Result<Option<int>>)
    ensures r.Ok? <==> ParseIntAuto(value) == Some(1) || ParseIntAuto(value) == Some(3)
    ensures r.Ok? && r.value.Some? ==> ParseIntAuto(value) == Some(r.value.value) && current != r.value
    ensures r.Ok? && r.value.None? ==> current == ParseIntAuto(value)
  {
    var v := ParseIntAuto(value);
    if v != Some(1) && v != Some(3) then Err("http option invalid. specify \"http 1\" or \"http 3\"")
    else if v == current then Ok(None)
    else Ok(v)
  }

  /** `parseInt` reads the leading number only: "3abc" and " 1" are accepted, "2" is refused. */
  lemma HttpLenient()
    ensures HttpOption("3abc", None) == Ok(Some(3))
    ensures HttpOption(" 1", None) == Ok(Some(1))
    ensures HttpOption("2", None).Err?
  {
    ParseThreeAbc();
    ParseSpaceOne();
    ParseTwo();
  }

  /** Without a radix, `parseInt` reads "0x3" and "0X1" in base 16: both are accepted. */
  lemma HttpHex()
    ensures HttpOption("0x3", None) == Ok(Some(3))
    ensures HttpOption("0X1", None) == Ok(Some(1))
  {
    assert SignedBody("0x3") == "0x3";
    assert HexPrefix("3") == "3";
    assert HexValue("3") == 3;
    assert SignedBody("0X1") == "0X1";
    assert HexPrefix("1") == "1";
    assert HexValue("1") == 1;
  }

  lemma ParseThreeAbc()
    ensures ParseIntAuto("3abc") == Some(3)
  {
    assert SignedBody("3abc") == "3abc";
    assert DigitPrefix("3abc") == "3" by { DigitPrefixOfDigits("3", "abc"); }
    assert DigitsValue("3") == 3;
  }

  lemma ParseSpaceOne()
    ensures ParseIntAuto(" 1") == Some(1)
  {
    assert TrimStart(" 1") == "1" by { assert IsWhitespace(' '); assert " 1"[1..] == "1"; }
    assert SignedBody(" 1") == "1";
    assert DigitPrefix("1") == "1" by { DigitPrefixOfDigits("1", ""); }
    assert DigitsValue("1") == 1;
  }

  lemma ParseTwo()
    ensures ParseIntAuto("2") == Some(2)
  {
    assert SignedBody("2") == "2";
    assert DigitPrefix("2") == "2" by { DigitPrefixOfDigits("2", ""); }
    assert DigitsValue("2") == 2;
  }

  const WwwModes: set<String> := {"off", "on", "enforce", "always"}

  /** Corrected, the www feature: one of off/on/enforce/always, applied unless equal to the current one. */
  function WwwOption(value: String, current: Option<String>): (r: Result<Option<String>>)
    ensures r.Ok? <==> value in WwwModes
    ensures r == Ok(None) <==> value in WwwModes && current == Some(value)
  {
    if value !in WwwModes then Err("www option invalid. specify \"www on\" or \"www off\" or \"www always\"")
    else if current == Some(value) then Ok(None)
    else Ok(Some(value))
  }

  /** The TypeError of a call to `nginxExec.setDirect`, which the nginx executor does not define. */
  const SetDirectMissing: String := "nginxExec.setDirect is not a function"

  /**
   * As written, the http feature: `extractInfo` sets no `http`, so the current value is always
   * undefined and every accepted value goes to `setDirect`, which throws.
   */
  function HttpAsWritten(value: String): (r: Result<Option<int>>)
    ensures r.Err?
    ensures r.error == SetDirectMissing <==> HttpOption(value, None).Ok?
  {
    var o := HttpOption(value, None);
    if o.Err? then o else Err(SetDirectMissing)
  }

  /** As written, the www feature: likewise, every accepted value ends at the missing `setDirect`. */
  function WwwAsWritten(value: String): (r: Result<Option<String>>)
    ensures r.Err?
    ensures r.error == SetDirectMissing <==> value in WwwModes
  {
    var o := WwwOption(value, None);
    if o.Err? then o else Err(SetDirectMissing)
  }

  /**
   * The http and www features never change the site as written, while the corrected versions
   * apply "http 3" and "www on" to a site that has neither.
   */
  lemma OptionsAsWrittenThrow()
    ensures HttpAsWritten("3") == Err(SetDirectMissing) && HttpOption("3", None) == Ok(Some(3))
    ensures WwwAsWritten("on") == Err(SetDirectMissing) && WwwOption("on", None) == Ok(Some("on"))
  {
    assert SignedBody("3") == "3";
    assert DigitPrefix("3") == "3" by { DigitPrefixOfDigits("3", ""); }
    assert DigitsValue("3") == 3;
  }

  /** `replace(/^\/+/, '')`: the leading run of '/' removed. */
  function DropLeadingSlashes(s: String): (r: String)
    ensures |r| <= |s| && r == s[|s| - |r|..]
    ensures forall i :: 0 <= i < |s| - |r| ==> s[i] == '/'
    ensures |r| == 0 || r[0] != '/'
  {
    if |s| > 0 && s[0] == '/' then DropLeadingSlashes(s[1..]) else s
  }

  /** `replace(/\/+$/, '')`: the trailing run of '/' removed. */
  function DropTrailingSlashes(s: String): (r: String)
    ensures |r| <= |s| && r == s[..|r|]
    ensures forall i :: |r| <= i < |s| ==> s[i] == '/'
    ensures |r| == 0 || r[|r| - 1] != '/'
  {
    if |s| > 0 && s[|s| - 1] == '/' then DropTrailingSlashes(s[..|s| - 1]) else s
  }

  /**
   * The root feature's relative path: slashes stripped at both ends, and on a subserver a
   * leading "domains/<subdomain>/" removed as well.
   */
  function RootValue(value: String, stillroot: bool, subdomain: String): String
  {
    var v := DropTrailingSlashes(DropLeadingSlashes(value));
    var nested := "domains/" + subdomain + "/";
    if !stillroot && StartsWith(v, nested) then v[|nested|..] else v
  }

  /** A path with no slash at either end. */
  predicate Unslashed(p: String)
  {
    |p| == 0 || (p[0] != '/' && p[|p| - 1] != '/')
  }

  lemma {:induction false} DropLeadingOf(n: nat, p: String)
    requires |p| == 0 || p[0] != '/'
    ensures DropLeadingSlashes(seq(n, _ => '/') + p) == p
  {
    if n > 0 {
      assert (seq(n, _ => '/') + p)[1..] == seq(n - 1, _ => '/') + p;
      DropLeadingOf(n - 1, p);
    } else {
      assert seq(n, _ => '/') + p == p;
    }
  }

  lemma {:induction false} DropTrailingOf(p: String, n: nat)
    requires |p| == 0 || p[|p| - 1] != '/'
    ensures DropTrailingSlashes(p + seq(n, _ => '/')) == p
  {
    if n > 0 {
      assert (p + seq(n, _ => '/'))[..|p| + n - 1] == p + seq(n - 1, _ => '/');
      DropTrailingOf(p, n - 1);
    } else {
      assert p + seq(n, _ => '/') == p;
    }
  }

  /** On the root domain any number of surrounding slashes is removed and nothing else. */
  lemma RootStripsSlashes(a: nat, p: String, b: nat, subdomain: String)
    requires Unslashed(p)
    ensures RootValue(seq(a, _ => '/') + p + seq(b, _ => '/'), true, subdomain) == p
  {
    var s := seq(a, _ => '/') + p + seq(b, _ => '/');
    if |p| == 0 {
      assert s == seq(a + b, _ => '/') + "";
      DropLeadingOf(a + b, "");
    } else {
      var q := p + seq(b, _ => '/');
      assert s == seq(a, _ => '/') + q;
      assert q[0] == p[0];
      DropLeadingOf(a, q);
      DropTrailingOf(p, b);
    }
  }

  /** On a subserver, "/domains/<sub>/p/" names the same directory as "p". */
  lemma RootSubserverPrefix(subdomain: String, p: String)
    requires Unslashed(p) && p != ""
    ensures RootValue("/domains/" + subdomain + "/" + p + "/", false, subdomain) == p
  {
    var nested := "domains/" + subdomain + "/";
    var body := nested + p;
    assert body[0] == 'd' && body[|body| - 1] == p[|p| - 1];
    assert "/domains/" + subdomain + "/" + p + "/" == seq(1, _ => '/') + body + seq(1, _ => '/');
    RootStripsSlashes(1, body, 1, subdomain);
    StartsWithConcat(nested, p);
    assert body[|nested|..] == p;
  }

  // ---------------------------------------------------------------------------------------------
  // The source planner (runnersub.js:665-752)
  // ---------------------------------------------------------------------------------------------

  /**
   * The parts of `new URL(source.url)` the planner reads. `protocol` carries its ':' ("https:")
   * and `hash` its '#' (or is ""); `bare` is the serialisation without the fragment, so the
   * URL's text is `bare + hash`.
   */
  datatype Url = Url(protocol: String, hostname: String, pathname: String, hash: String, bare: String)

  function Href(u: Url): String
  {
    u.bare + u.hash
  }

  /** The source record after defaulting; "" stands for an absent field. */
  datatype Source = Source(url: String, stype: String, branch: String, directory: String,
                           depth: String, submodules: bool, rootlesskit: bool)

  /**
   * `/^(?:(?:https?|ftp|ssh):\/\/)?([^\/]+)/` matches exactly the strings whose first character
   * exists and is not '/': the optional scheme can always be skipped.
   */
  predicate ValidSourceUrl(url: String)
  {
    |url| > 0 && url[0] != '/'
  }

  const GitHosts: set<String> :=
    {"github.com", "gitlab.com", "bitbucket.com", "www.github.com", "www.gitlab.com", "www.bitbucket.com"}

  /**
   * The default source type: clone for an ssh URL, a `.git` path, or a git host not serving a
   * `.zip`/`.tar.gz`; extract otherwise. `ssh` is the protocol text compared against.
   */
  function DefaultType(u: Url, ssh: String): String
  {
    if u.protocol == ssh || EndsWith(u.pathname, ".git")
       || (u.hostname in GitHosts && !EndsWith(u.pathname, ".zip") && !EndsWith(u.pathname, ".tar.gz"))
    then "clone" else "extract"
  }

  /** As written: the protocol is compared with "ssh", which a parsed URL never reports. */
  function SourceTypeAsWritten(given: String, u: Url): String
  {
    if given == "clone" || given == "extract" then given else DefaultType(u, "ssh")
  }

  /** Corrected: compared with "ssh:", the protocol of every `ssh://` URL. */
  function SourceType(given: String, u: Url): (r: String)
    ensures r == "clone" || r == "extract"
    ensures (given == "clone" || given == "extract") ==> r == given
  {
    if given == "clone" || given == "extract" then given else DefaultType(u, "ssh:")
  }

  /** As written, `ssh://host/repo` (no `.git`, not a git host) is downloaded as an archive. */
  lemma SshUrlAsWritten()
    ensures SourceTypeAsWritten("", Url("ssh:", "example.com", "/repo", "", "ssh://example.com/repo")) == "extract"
  {
    assert !EndsWith("/repo", ".git");
  }

  /** Corrected, every ssh URL without an explicit type is cloned. */
  lemma SshUrlFixed(given: String, u: Url)
    requires u.protocol == "ssh:" && given != "clone" && given != "extract"
    ensures SourceType(given, u) == "clone"
  {
  }

  /** The `--filter`/`--depth` part of the clone command. */
  function DepthFlags(depth: String): (r: String)
    ensures depth == "" || depth == "blobless" ==> r == " --filter=blob:none"
    ensures depth == "treeless" ==> r == " --filter=tree:0"
    ensures depth == "shallow" ==> r == " --depth 1"
    ensures depth !in {"", "blobless", "treeless", "shallow"} ==> r == ""
  {
    (if depth == "" || depth == "blobless" then " --filter=blob:none" else "")
    + (if depth == "treeless" then " --filter=tree:0" else "")
    + (if depth == "shallow" then " --depth 1" else "")
  }

  /** The archive suffix the extract plan downloads to, and its unpacking command. */
  function Archive(pathname: String): (String, String)
  {
    if EndsWith(pathname, ".tar.gz") then ("_.tar.gz", "tar -xzf _.tar.gz ; rm _.tar.gz")
    else if EndsWith(pathname, ".tar.xz") then ("_.tar.xz", "tar -xJf _.tar.xz ; rm _.tar.xz")
    else if EndsWith(pathname, ".tar.bz2") then ("_.tar.bz2", "tar -xjf _.tar.bz2 ; rm _.tar.bz2")
    else ("_.zip", "unzip -q -o _.zip ; rm _.zip")
  }

  /** The planned commands and the log note. */
  datatype Plan = Plan(commands: seq<String>, note: String)

  const InvalidSourceUrl: String := "Invalid source URL"
  /** The TypeError `new URL` throws for text it cannot parse as an absolute URL. */
  const InvalidUrl: String := "Invalid URL"
  /** The URIError `decodeURI` throws for a malformed escape. */
  const UriMalformed: String := "URI malformed"

  /** The source after defaulting: `config.directory` stands in for an unset `directory`. */
  function Defaulted(s: Source, configDirectory: String): Source
  {
    if s.directory == "" then s.(directory := configDirectory) else s
  }

  /**
   * Whether the fragment names what is checked out: the branch of a clone that names neither a
   * branch nor a directory, or the sub-directory of an extract that names no directory.
   */
  predicate FromFragment(src: Source, u: Url)
  {
    src.directory == "" && u.hash != "" && (SourceType(src.stype, u) == "extract" || src.branch == "")
  }

  /**
   * The clone command. The branch is `branch`, else `directory`, else `fragment` (the decoded
   * hash); only in the last case is the hash removed from the URL.
   */
  function CloneCommand(s: Source, u: Url, fragment: String, esc: String -> String): String
  {
    var fromHash := s.branch == "" && s.directory == "" && u.hash != "";
    var branch := if s.branch != "" then s.branch else if s.directory != "" then s.directory
                  else if fromHash then fragment else "";
    var href := if fromHash then u.bare else Href(u);
    "git clone " + esc(href)
    + (if branch != "" then " -b " + esc(branch) else "")
    + DepthFlags(s.depth)
    + (if s.submodules then " --recurse-submodules" else "")
    + " ."
  }

  /**
   * The extract commands: download and unpack by suffix, move the named sub-directory up (from
   * `directory`, else `fragment`, the decoded hash, which is then removed from the URL), and
   * open permissions.
   */
  function ExtractCommands(s: Source, u: Url, fragment: String, esc: String -> String): seq<String>
  {
    var fromHash := s.directory == "" && u.hash != "";
    var dir := if s.directory != "" then s.directory else if fromHash then fragment else "";
    var href := if fromHash then u.bare else Href(u);
    var (file, unpack) := Archive(u.pathname);
    ["wget -O " + file + " " + esc(href), unpack]
    + (if dir != "" then ["mv " + esc(dir) + "/* .", "rm -rf " + esc(dir)] else [])
    + ["chmod -R 0750 *"]
  }

  /**
   * `executedCMD` for a source: a URL the pattern refuses is an error; otherwise, unless the URL
   * is "clear", `new URL` parses it (`parsed`, None where it throws) and `decodeURI` decodes the
   * fragment when it is used (`decode`, None where it throws), and either failure is an error.
   * Otherwise the directory is cleared first and the clone or the extract plan follows.
   * `configDirectory` is `config.directory`, used when the source names no directory.
   */
  function SourcePlan(s: Source, configDirectory: String, parsed: Option<Url>, decode: String -> Option<String>,
                      esc: String -> String): (r: Result<Plan>)
    ensures r.Err? <==> s.url != "clear"
                        && (!ValidSourceUrl(s.url) || parsed.None?
                            || (FromFragment(Defaulted(s, configDirectory), parsed.value)
                                && decode(parsed.value.hash[1..]).None?))
    ensures r.Err? ==> r.error == (if !ValidSourceUrl(s.url) then InvalidSourceUrl
                                   else if parsed.None? then InvalidUrl else UriMalformed)
    ensures r.Ok? ==> |r.value.commands| >= 1
                      && r.value.commands[0] == (if s.rootlesskit then "rootlesskit rm -rf *" else "rm -rf *")
  {
    var first := if s.rootlesskit then "rootlesskit rm -rf *" else "rm -rf *";
    var src := Defaulted(s, configDirectory);
    if s.url == "clear" then Ok(Plan([first], "Clearing files"))
    else if !ValidSourceUrl(s.url) then Err(InvalidSourceUrl)
    else if parsed.None? then Err(InvalidUrl)
    else
      var u := parsed.value;
      var decoded := if FromFragment(src, u) then decode(u.hash[1..]) else Some("");
      if decoded.None? then Err(UriMalformed)
      else if SourceType(s.stype, u) == "clone" then
        Ok(Plan([first, CloneCommand(src, u, decoded.value, esc)], "Cloning files"))
      else Ok(Plan([first] + ExtractCommands(src, u, decoded.value, esc), "Downloading files"))
  }

  /**
   * The pattern's scheme is optional, so scheme-less text such as "github.com/u/r" passes it;
   * `new URL` then throws on it, and that TypeError is what refuses the source.
   */
  lemma SchemeLessRefusedByParse(s: Source, configDirectory: String, decode: String -> Option<String>,
                                 esc: String -> String)
    requires s.url == "github.com/u/r"
    ensures ValidSourceUrl(s.url)
    ensures SourcePlan(s, configDirectory, None, decode, esc) == Err(InvalidUrl)
  {
  }

  /** An extract plan always ends by opening the permissions of what it unpacked. */
  lemma ExtractEndsWithChmod(s: Source, configDirectory: String, u: Url, decode: String -> Option<String>,
                             esc: String -> String)
    requires s.url != "clear" && ValidSourceUrl(s.url) && SourceType(s.stype, u) == "extract"
    requires !FromFragment(Defaulted(s, configDirectory), u) || decode(u.hash[1..]).Some?
    ensures var p := SourcePlan(s, configDirectory, Some(u), decode, esc).value;
            p.note == "Downloading files" && p.commands[|p.commands| - 1] == "chmod -R 0750 *"
            && p.commands[1] == "wget -O " + Archive(u.pathname).0 + " " + esc(if s.directory == "" && configDirectory == "" && u.hash != "" then u.bare else Href(u))
  {
  }

  /** A clone plan is the clearing command followed by the clone command. */
  lemma ClonePlanOf(s: Source, configDirectory: String, u: Url, decode: String -> Option<String>,
                    esc: String -> String) returns (fragment: String)
    requires s.url != "clear" && ValidSourceUrl(s.url) && SourceType(s.stype, u) == "clone"
    requires !FromFragment(Defaulted(s, configDirectory), u) || decode(u.hash[1..]).Some?
    ensures FromFragment(Defaulted(s, configDirectory), u) ==> decode(u.hash[1..]) == Some(fragment)
    ensures SourcePlan(s, configDirectory, Some(u), decode, esc)
            == Ok(Plan([if s.rootlesskit then "rootlesskit rm -rf *" else "rm -rf *",
                        CloneCommand(Defaulted(s, configDirectory), u, fragment, esc)], "Cloning files"))
  {
    fragment := if FromFragment(Defaulted(s, configDirectory), u) then decode(u.hash[1..]).value else "";
  }

  /** A clone plan is the clearing command and a single `git clone … .` of the repository. */
  lemma ClonePlanShape(s: Source, configDirectory: String, u: Url, decode: String -> Option<String>,
                       esc: String -> String)
    requires s.url != "clear" && ValidSourceUrl(s.url) && SourceType(s.stype, u) == "clone"
    requires !FromFragment(Defaulted(s, configDirectory), u) || decode(u.hash[1..]).Some?
    ensures var p := SourcePlan(s, configDirectory, Some(u), decode, esc).value;
            |p.commands| == 2 && p.note == "Cloning files"
            && StartsWith(p.commands[1], "git clone ") && EndsWith(p.commands[1], " .")
  {
    var fragment := ClonePlanOf(s, configDirectory, u, decode, esc);
    CloneCommandEnds(Defaulted(s, configDirectory), u, fragment, esc);
  }

  /** Every clone command starts with `git clone ` and ends with ` .`. */
  lemma CloneCommandEnds(src: Source, u: Url, fragment: String, esc: String -> String)
    ensures var c := CloneCommand(src, u, fragment, esc);
            StartsWith(c, "git clone ") && EndsWith(c, " .")
  {
    var c := CloneCommand(src, u, fragment, esc);
    var head := "git clone ";
    var tail := c[|head|..];
    assert c == head + tail;
    StartsWithConcat(head, tail);
    assert c[|c| - 2..] == " .";
  }

  /**
   * A branch taken from the fragment is the DECODED fragment: a clone naming neither branch nor
   * directory checks out `decodeURI` of the hash, and clones the URL without it.
   */
  lemma CloneBranchDecoded(s: Source, configDirectory: String, u: Url, decode: String -> Option<String>,
                           esc: String -> String, branch: String)
    requires s.url != "clear" && ValidSourceUrl(s.url) && SourceType(s.stype, u) == "clone"
    requires s.branch == "" && s.directory == "" && configDirectory == "" && u.hash != ""
    requires decode(u.hash[1..]) == Some(branch) && branch != ""
    ensures var p := SourcePlan(s, configDirectory, Some(u), decode, esc).value;
            StartsWith(p.commands[1], "git clone " + esc(u.bare) + " -b " + esc(branch))
  {
    var fragment := ClonePlanOf(s, configDirectory, u, decode, esc);
    CloneFromFragment(s, u, branch, esc);
  }

  /** The clone command of a source naming neither branch nor directory checks out the fragment. */
  lemma CloneFromFragment(s: Source, u: Url, branch: String, esc: String -> String)
    requires s.branch == "" && s.directory == "" && u.hash != "" && branch != ""
    ensures StartsWith(CloneCommand(s, u, branch, esc), "git clone " + esc(u.bare) + " -b " + esc(branch))
  {
    var x, y := DepthFlags(s.depth), if s.submodules then " --recurse-submodules" else "";
    StartsWithFour(CloneCommand(s, u, branch, esc), "git clone " + esc(u.bare), " -b ", esc(branch), x, y, " .");
  }

  // ---------------------------------------------------------------------------------------------
  // The order of one run (runnersub.js:618-799): features, source with the firewall bracket,
  // commands, services, then the deferred ssl features
  // ---------------------------------------------------------------------------------------------

  /** A feature as written in `config.features`: a text line, or an object keyed by its feature. */
  datatype Feature = Words(text: String) | Keyed(key: String, value: String)

  /** `typeof feature === 'string' && feature.match(/^ssl/)`: deferred to the `finally` block. */
  predicate IsSsl(f: Feature)
  {
    f.Words? && StartsWith(f.text, "ssl")
  }

  /** What the run does, in order, at the level of whole steps. */
  datatype Event =
    | MakeHtmlDir
    | RunFeature(f: Feature)
    | ApplyNginx
    | ApplyUnit
    | FirewallOff
    | RunSource
    | RunCommands
    | RunServices
    | FirewallOn

  /** The parts of the config the run's order depends on. */
  datatype Config = Config(features: Option<seq<Feature>>, nginx: bool, nginxRoot: Option<String>,
                           root: Option<String>, unit: bool, source: bool, commands: bool, services: bool)

  /** How the source step ends: planned and run, rejected URL, or a command that throws. */
  datatype SourceEnd = SourceDone | BadUrl | CommandFailed

  /** A present text that JavaScript's truthiness test accepts: the empty string is falsy. */
  predicate Truthy(o: Option<String>)
  {
    o.Some? && o.value != ""
  }

  /** The feature list after `nginx.root` (else `root`) is moved into it as a `{root}` feature;
      an empty `root` text is falsy and moves nothing. */
  function Features(c: Config): Option<seq<Feature>>
  {
    var moved :=
      if c.nginx && Truthy(c.nginxRoot) then Some(c.nginxRoot.value)
      else if Truthy(c.root) then Some(c.root.value)
      else None;
    if moved.Some? then Some(c.features.GetOr([]) + [Keyed("root", moved.value)]) else c.features
  }

  /**
   * A `{root}` feature is appended only with a non-empty root text, and it comes last; with no
   * non-empty root text anywhere the feature list is left as it was.
   */
  lemma RootMoved(c: Config)
    ensures Features(c) != c.features ==>
              Features(c).Some? && |Features(c).value| > 0
              && Features(c).value[|Features(c).value| - 1].Keyed?
              && Features(c).value[|Features(c).value| - 1].key == "root"
              && Features(c).value[|Features(c).value| - 1].value != ""
    ensures !Truthy(c.nginxRoot) && !Truthy(c.root) ==> Features(c) == c.features
  {
  }

  /** The features run in the main pass (all but the ssl lines), in order. */
  function MainPass(fs: seq<Feature>): seq<Event>
  {
    if |fs| == 0 then []
    else MainPass(fs[..|fs| - 1]) + (if IsSsl(fs[|fs| - 1]) then [] else [RunFeature(fs[|fs| - 1])])
  }

  /** The ssl lines, run last in the `finally` block, in order. */
  function SslPass(fs: seq<Feature>): seq<Event>
  {
    if |fs| == 0 then []
    else SslPass(fs[..|fs| - 1]) + (if IsSsl(fs[|fs| - 1]) then [RunFeature(fs[|fs| - 1])] else [])
  }

  /** The line that runs one feature. */
  function RunOf(f: Feature): Event
  {
    RunFeature(f)
  }

  /** Every feature runs exactly once across the two passes. */
  lemma {:induction false} PassesCoverAll(fs: seq<Feature>)
    ensures multiset(MainPass(fs) + SslPass(fs)) == multiset(MapSeq(fs, RunOf))
  {
    if |fs| > 0 {
      var init := fs[..|fs| - 1];
      PassesCoverAll(init);
      RunsLast(fs);
    }
  }

  lemma RunsLast(fs: seq<Feature>)
    requires |fs| > 0
    ensures MapSeq(fs, RunOf) == MapSeq(fs[..|fs| - 1], RunOf) + [RunFeature(fs[|fs| - 1])]
  {
  }

  /** The ssl pass holds only ssl lines, the main pass none. */
  lemma {:induction false} PassesSplit(fs: seq<Feature>)
    ensures forall e :: e in SslPass(fs) ==> e.RunFeature? && IsSsl(e.f)
    ensures forall e :: e in MainPass(fs) ==> e.RunFeature? && !IsSsl(e.f)
  {
    if |fs| > 0 {
      PassesSplit(fs[..|fs| - 1]);
    }
  }

  /** The `try` part after the features: source (with the firewall rule lifted first), commands, services. */
  function TryPart(c: Config, firewallBefore: bool, end: SourceEnd): seq<Event>
  {
    var source :=
      if !c.source || end == BadUrl then []
      else (if firewallBefore then [FirewallOff] else []) + [RunSource];
    if c.source && end != SourceDone then source
    else source + (if c.commands then [RunCommands] else []) + (if c.services then [RunServices] else [])
  }

  /**
   * The whole run. `firewallBefore`/`firewallAfter` are the two answers of `firewallStatus()`;
   * the last two parts form the `finally` block: the firewall rule put back, then the deferred
   * ssl features.
   */
  function Trace(c: Config, firewallBefore: bool, firewallAfter: bool, end: SourceEnd): seq<Event>
  {
    var fs := Features(c);
    (if c.source || c.commands || c.services then [MakeHtmlDir] else [])
    + (if fs.Some? then MainPass(fs.value) else [])
    + ((if c.nginx then [ApplyNginx] else []) + (if c.unit then [ApplyUnit] else []))
    + TryPart(c, firewallBefore, end)
    + (if c.source && firewallAfter then [FirewallOn] else [])
    + (if fs.Some? then SslPass(fs.value) else [])
  }

  /**
   * The firewall bracket: with a source and the firewall on, the rule is lifted before the
   * source commands and put back afterwards, whether or not a command failed.
   */
  lemma FirewallBracket(c: Config, end: SourceEnd)
    requires c.source && end != BadUrl
    ensures var t := Trace(c, true, true, end);
            exists i, j, k :: 0 <= i < j < k < |t| && t[i] == FirewallOff && t[j] == RunSource && t[k] == FirewallOn
  {
    var t := Trace(c, true, true, end);
    var fs := Features(c);
    var pre := (if c.source || c.commands || c.services then [MakeHtmlDir] else [])
               + (if fs.Some? then MainPass(fs.value) else [])
               + ((if c.nginx then [ApplyNginx] else []) + (if c.unit then [ApplyUnit] else []));
    var tp := TryPart(c, true, end);
    var ssl := if fs.Some? then SslPass(fs.value) else [];
    assert tp[0] == FirewallOff && tp[1] == RunSource;
    assert t == pre + tp + [FirewallOn] + ssl;
    assert t[|pre|] == FirewallOff && t[|pre| + 1] == RunSource && t[|pre| + |tp|] == FirewallOn;
  }

  /** The main feature loop: every feature but the ssl lines, appended in order. */
  method MainLoop(list: seq<Feature>, start: seq<Event>) returns (events: seq<Event>)
    ensures events == start + MainPass(list)
  {
    events := start;
    for i := 0 to |list|
      invariant events == start + MainPass(list[..i])
    {
      assert list[..i + 1][..i] == list[..i];
      if !IsSsl(list[i]) {
        events := events + [RunFeature(list[i])];
      }
    }
    assert list[..|list|] == list;
  }

  /** The loop of the `finally` block: the ssl lines, appended in order. */
  method SslLoop(list: seq<Feature>, start: seq<Event>) returns (events: seq<Event>)
    ensures events == start + SslPass(list)
  {
    events := start;
    for i := 0 to |list|
      invariant events == start + SslPass(list[..i])
    {
      assert list[..i + 1][..i] == list[..i];
      if IsSsl(list[i]) {
        events := events + [RunFeature(list[i])];
      }
    }
    assert list[..|list|] == list;
  }

  /** The run in the order the source performs it, building the event list step by step. */
  method RunConfig(c: Config, firewallBefore: bool, firewallAfter: bool, end: SourceEnd) returns (events: seq<Event>)
    ensures events == Trace(c, firewallBefore, firewallAfter, end)
  {
    var fs := Features(c);
    events := RunFront(c);
    events := events + TryPart(c, firewallBefore, end);
    if c.source && firewallAfter {
      events := events + [FirewallOn];
    }
    if fs.Some? {
      events := SslLoop(fs.value, events);
    }
  }

  /** Up to the `try` block: the html directory, the main feature pass, nginx and unit. */
  method RunFront(c: Config) returns (events: seq<Event>)
    ensures var fs := Features(c);
            events == (if c.source || c.commands || c.services then [MakeHtmlDir] else [])
                      + (if fs.Some? then MainPass(fs.value) else [])
                      + ((if c.nginx then [ApplyNginx] else []) + (if c.unit then [ApplyUnit] else []))
  {
    var fs := Features(c);
    events := if c.source || c.commands || c.services then [MakeHtmlDir] else [];
    if fs.Some? {
      events := MainLoop(fs.value, events);
    }
    ghost var front := events;
    if c.nginx {
      events := events + [ApplyNginx];
    }
    if c.unit {
      events := events + [ApplyUnit];
    }
    assert events == front + ((if c.nginx then [ApplyNginx] else []) + (if c.unit then [ApplyUnit] else []));
  }

  /** A join ends with its last part. */
  lemma {:induction false} JoinEndsWithLast(parts: seq<String>, sep: String)
    requires |parts| > 0
    ensures EndsWith(Join(parts, sep), parts[|parts| - 1])
  {
    if |parts| > 1 {
      JoinEndsWithLast(parts[1..], sep);
      var j := Join(parts[1..], sep);
      assert Join(parts, sep) == parts[0] + sep + j;
      var last := parts[|parts| - 1];
      assert (parts[0] + sep + j)[|parts[0] + sep + j| - |last|..] == j[|j| - |last|..];
    }
  }

  /** The environment line sent before the commands: each `k='v'`, then `DATABASE='<dbname>'`. */
  function EnvLine(envs: seq<(String, String)>, dbname: String): (r: String)
    ensures EndsWith(r, "DATABASE='" + dbname + "'")
  {
    var entries := envs + [("DATABASE", dbname)];
    var parts := MapSeq(entries, (e: (String, String)) => e.0 + "='" + e.1 + "'");
    var joined := Join(parts, " ");
    JoinEndsWithLast(parts, " ");
    assert parts[|parts| - 1] == "DATABASE='" + dbname + "'";
    " " + joined
  }
}
