/**
 * The process killer (sudokill.js): every process outside a login session, or running for more
 * than three hours, is killed with `kill -9`, except those of root, of the users named with
 * `--ignore` and of the users with lingering enabled.
 *
 * The output of `ps` and `who`, the `--test` and `--ignore` options and the names in the linger
 * directory (`None` when it does not exist) are parameters; the kill commands are the result.
 */
module Sudokill {
  import opened Base
  import opened Strings
  import opened Patterns

  // ---------------------------------------------------------------------------------------------
  // One line of `ps -eo user:70,pid,etimes,command --forest --no-headers`
  // ---------------------------------------------------------------------------------------------

  /** `[\w.-]`. */
  predicate IsUserChar(c: char)
  {
    IsWordChar(c) || c == '.' || c == '-'
  }

  predicate IsSpace(c: char)
  {
    c == ' '
  }

  datatype Proc = Proc(user: String, pid: String, etimes: nat, command: String)

  /** The end of the user column: the longest run of name characters, and a `+` right after it. */
  function UserEnd(line: String): (m: nat)
    ensures m <= |line|
  {
    var n := Span(line, IsUserChar);
    if n == 0 then 0 else if n < |line| && line[n] == '+' then n + 1 else n
  }

  /** ` +(\d+)` at the start of `a`: the digits, and the text after them. */
  function SpacedDigits(a: String): (r: Option<(String, String)>)
    ensures r.Some? ==> |r.value.0| > 0 && AllOf(r.value.0, IsDigit)
  {
    var s := Span(a, IsSpace);
    var b := a[s..];
    var d := Span(b, IsDigit);
    if s == 0 || d == 0 then None else Some((b[..d], b[d..]))
  }

  /**
   * `/^([\w.-]+\+?) +(\d+) +(\d+) (.+)$/`: a user name (perhaps marked truncated with `+`),
   * spaces, the pid, spaces, the elapsed seconds, one space and the command. Every run is taken
   * whole, since what follows each cannot continue it, so the match is unique where it exists.
   */
  function ParseLine(line: String): Option<Proc>
  {
    var m := UserEnd(line);
    if m == 0 then None
    else
      match SpacedDigits(line[m..])
      case None => None
      case Some((pid, c)) =>
        match SpacedDigits(c)
        case None => None
        case Some((et, f)) =>
          if |f| < 2 || f[0] != ' ' || !AllOf(f[1..], AnyChar) then None
          else Some(Proc(line[..m], pid, DigitsValue(et), f[1..]))
  }

  predicate AllOf(s: String, cls: char -> bool)
  {
    forall i :: 0 <= i < |s| ==> cls(s[i])
  }

  /** The user column as the pattern accepts it: a name, perhaps with a `+` after it. */
  predicate UserField(user: String)
  {
    |user| > 0 && (AllOf(user, IsUserChar) || (|user| > 1 && user[|user| - 1] == '+' && AllOf(user[..|user| - 1], IsUserChar)))
  }

  /** The columns of a line the pattern accepts, laid out with the spaces between them. */
  predicate Columns(user: String, sp1: String, pid: String, sp2: String, et: String, command: String)
  {
    UserField(user) && |sp1| > 0 && AllOf(sp1, IsSpace) && |pid| > 0 && AllOf(pid, IsDigit)
    && |sp2| > 0 && AllOf(sp2, IsSpace) && |et| > 0 && AllOf(et, IsDigit)
    && |command| > 0 && AllOf(command, AnyChar)
  }

  lemma UserEndOf(user: String, rest: String)
    requires UserField(user)
    requires |rest| > 0 && rest[0] == ' '
    ensures UserEnd(user + rest) == |user|
  {
    if AllOf(user, IsUserChar) {
      SpanOf(user, rest, IsUserChar);
    } else {
      var w := user[..|user| - 1];
      assert user + rest == w + (['+'] + rest);
      SpanOf(w, ['+'] + rest, IsUserChar);
    }
  }

  lemma UserEndSound(line: String)
    requires UserEnd(line) > 0
    ensures UserField(line[..UserEnd(line)])
  {
    var n := Span(line, IsUserChar);
    assert line[..UserEnd(line)][..n] == line[..n];
  }

  lemma SpacedDigitsOf(sp: String, digits: String, rest: String)
    requires |sp| > 0 && AllOf(sp, IsSpace) && |digits| > 0 && AllOf(digits, IsDigit)
    requires |rest| == 0 || !IsDigit(rest[0])
    ensures SpacedDigits(sp + digits + rest) == Some((digits, rest))
  {
    var a := sp + digits + rest;
    assert a == sp + (digits + rest);
    SpanOf(sp, digits + rest, IsSpace);
    assert a[|sp|..] == digits + rest;
    SpanOf(digits, rest, IsDigit);
    assert (digits + rest)[..|digits|] == digits && (digits + rest)[|digits|..] == rest;
  }

  lemma SpacedDigitsSound(a: String)
    requires SpacedDigits(a).Some?
    ensures var (digits, rest) := SpacedDigits(a).value;
            exists sp :: |sp| > 0 && AllOf(sp, IsSpace) && a == sp + digits + rest
                         && (|rest| == 0 || !IsDigit(rest[0]))
  {
    var s := Span(a, IsSpace);
    var b := a[s..];
    var d := Span(b, IsDigit);
    assert a == a[..s] + b[..d] + b[d..];
  }

  /** A line laid out in the columns parses back to them, the elapsed time read as a number. */
  lemma ParseColumns(user: String, sp1: String, pid: String, sp2: String, et: String, command: String)
    requires Columns(user, sp1, pid, sp2, et, command)
    ensures ParseLine(user + sp1 + pid + sp2 + et + " " + command)
            == Some(Proc(user, pid, DigitsValue(et), command))
  {
    var t5 := " " + command;
    var t3 := sp2 + et + t5;
    var t1 := sp1 + pid + t3;
    var line := user + t1;
    assert line == user + sp1 + pid + sp2 + et + " " + command;
    UserEndOf(user, t1);
    assert line[|user|..] == t1 && line[..|user|] == user;
    SpacedDigitsOf(sp1, pid, t3);
    SpacedDigitsOf(sp2, et, t5);
    assert t5[1..] == command;
  }

  /** The stages a line that parses goes through. */
  lemma ParseStages(line: String)
    requires ParseLine(line).Some?
    ensures var p := ParseLine(line).value;
            var m := UserEnd(line);
            m > 0 && SpacedDigits(line[m..]).Some?
            && var (pid, c) := SpacedDigits(line[m..]).value;
               SpacedDigits(c).Some?
               && var (et, f) := SpacedDigits(c).value;
                  p == Proc(line[..m], pid, DigitsValue(et), f[1..])
                  && |f| >= 2 && f == " " + f[1..] && AllOf(f[1..], AnyChar)
  {
    var m := UserEnd(line);
    var (pid, c) := SpacedDigits(line[m..]).value;
    var (et, f) := SpacedDigits(c).value;
    assert f == [f[0]] + f[1..];
  }

  lemma Layout(line: String, m: nat, sp1: String, pid: String, c: String, sp2: String, et: String, f: String, command: String)
    requires m <= |line| && line[m..] == sp1 + pid + c && c == sp2 + et + f && f == " " + command
    ensures line == line[..m] + sp1 + pid + sp2 + et + " " + command
  {
    assert line == line[..m] + line[m..];
  }

  /** A line that parses is laid out in columns, the process fields being the columns. */
  lemma ParseSound(line: String)
    requires ParseLine(line).Some?
    ensures var p := ParseLine(line).value;
            exists sp1, sp2, et :: Columns(p.user, sp1, p.pid, sp2, et, p.command)
                                   && line == p.user + sp1 + p.pid + sp2 + et + " " + p.command
                                   && p.etimes == DigitsValue(et)
  {
    var p := ParseLine(line).value;
    ParseStages(line);
    var m := UserEnd(line);
    UserEndSound(line);
    var (pid, c) := SpacedDigits(line[m..]).value;
    SpacedDigitsSound(line[m..]);
    var sp1 :| |sp1| > 0 && AllOf(sp1, IsSpace) && line[m..] == sp1 + pid + c;
    var (et, f) := SpacedDigits(c).value;
    SpacedDigitsSound(c);
    var sp2 :| |sp2| > 0 && AllOf(sp2, IsSpace) && c == sp2 + et + f;
    Layout(line, m, sp1, pid, c, sp2, et, f, p.command);
    assert Columns(p.user, sp1, p.pid, sp2, et, p.command);
  }

  // ---------------------------------------------------------------------------------------------
  // The users spared and the processes listed
  // ---------------------------------------------------------------------------------------------

  /** `ignoreUsers` before the `who` loop: the `--ignore` names, the lingering users and root. */
  function IgnoreSet(ignore: String, linger: Option<seq<String>>): (r: set<String>)
    ensures "root" in r
    ensures forall u :: u in r <==> u == "root" || (ignore != "" && u in Split(ignore, ','))
                                     || (linger.Some? && u in linger.value && u != "")
  {
    (if ignore != "" then set u | u in Split(ignore, ',') else {})
    + (if linger.Some? then set u | u in linger.value && u != "" else {})
    + {"root"}
  }

  /** `lists`: the lines that parse, whose user is not ignored, in order. */
  function Listed(lines: seq<String>, ignore: set<String>): seq<Proc>
  {
    if |lines| == 0 then []
    else
      var p := ParseLine(lines[0]);
      (if p.Some? && p.value.user !in ignore then [p.value] else []) + Listed(lines[1..], ignore)
  }

  /** A process is listed exactly when a line parses to it and its user is not ignored. */
  lemma {:induction false} ListedMembers(lines: seq<String>, ignore: set<String>, p: Proc)
    ensures p in Listed(lines, ignore) <==> p.user !in ignore && exists line :: line in lines && ParseLine(line) == Some(p)
  {
    if |lines| > 0 {
      ListedMembers(lines[1..], ignore, p);
      assert lines == [lines[0]] + lines[1..];
    }
  }

  /** `item.match(/^[\w.-]+/)[0]`, `None` where the match is `null`. */
  function LeadingName(item: String): (r: Option<String>)
    ensures r.Some? ==> |r.value| > 0 && AllOf(r.value, IsUserChar) && StartsWith(item, r.value)
    ensures r.None? <==> |item| == 0 || !IsUserChar(item[0])
  {
    var n := Span(item, IsUserChar);
    if n == 0 then None else Some(item[..n])
  }

  /**
   * The `who` loop as written: reading `[0]` of a `null` match throws, so a line that does not
   * start with a name ends the script.
   */
  function LoggedInAsWritten(who: seq<String>): Result<set<String>>
  {
    if |who| == 0 then Ok({})
    else
      match LeadingName(who[0])
      case None => Err("TypeError: Cannot read properties of null (reading '0')")
      case Some(u) =>
        var rest := LoggedInAsWritten(who[1..]);
        if rest.Err? then rest else Ok({u} + rest.value)
  }

  /** The `who` loop as intended: the names the lines start with; a line without one is skipped. */
  function LoggedIn(who: seq<String>): set<String>
  {
    if |who| == 0 then {}
    else
      var name := LeadingName(who[|who| - 1]);
      LoggedIn(who[..|who| - 1]) + (if name.Some? then {name.value} else {})
  }

  lemma {:induction false} LoggedInMembers(who: seq<String>, u: String)
    ensures u in LoggedIn(who) <==> exists line :: line in who && LeadingName(line) == Some(u)
  {
    if |who| > 0 {
      var init := who[..|who| - 1];
      LoggedInMembers(init, u);
      assert who == init + [who[|who| - 1]];
    }
  }

  /**
   * With nobody logged in, `who` prints nothing, its trimmed output splits into one empty line,
   * and the loop as written throws before anything is killed.
   */
  lemma NobodyLoggedInThrows()
    ensures Split(Trim(""), '\n') == [""]
    ensures LoggedInAsWritten(Split(Trim(""), '\n')).Err?
  {
    assert Trim("") == "";
  }

  /** Where every line starts with a name, the loop as written and as intended agree. */
  lemma {:induction false} LoggedInAgrees(who: seq<String>)
    requires forall line :: line in who ==> LeadingName(line).Some?
    ensures LoggedInAsWritten(who) == Ok(LoggedIn(who))
  {
    if |who| > 0 {
      assert who == [who[0]] + who[1..];
      LoggedInAgrees(who[1..]);
      forall u ensures u in LoggedIn(who) <==> u in {LeadingName(who[0]).value} + LoggedIn(who[1..]) {
        LoggedInMembers(who, u);
        LoggedInMembers(who[1..], u);
      }
      assert LoggedIn(who) == {LeadingName(who[0]).value} + LoggedIn(who[1..]);
    }
  }

  /** The `who` loop: the name each line starts with joins the ignored users. */
  method AddLoggedIn(ignore: set<String>, who: seq<String>) returns (r: set<String>)
    ensures r == ignore + LoggedIn(who)
  {
    r := ignore;
    for k := 0 to |who|
      invariant r == ignore + LoggedIn(who[..k])
    {
      assert who[..k + 1][..k] == who[..k];
      var name := LeadingName(who[k]);
      if name.Some? {
        r := r + {name.value};
      }
    }
    assert who[..|who|] == who;
  }

  // ---------------------------------------------------------------------------------------------
  // The candidates and the kill loop
  // ---------------------------------------------------------------------------------------------

  /** Running for over three hours, or for over a minute outside a session and not indented. */
  predicate Candidate(p: Proc, ignore: set<String>)
  {
    p.etimes > 10800 || ((|p.command| == 0 || p.command[0] != ' ') && p.user !in ignore && p.etimes > 60)
  }

  function Candidates(procs: seq<Proc>, ignore: set<String>): (r: seq<Proc>)
    ensures forall p :: p in r <==> p in procs && Candidate(p, ignore)
  {
    if |procs| == 0 then []
    else (if Candidate(procs[0], ignore) then [procs[0]] else []) + Candidates(procs[1..], ignore)
  }

  function KillCommand(p: Proc): String
  {
    "kill -9 " + p.pid
  }

  /** The kill loop: one `kill -9` per candidate, in order; none in test mode. */
  method KillAll(candidates: seq<Proc>, test: bool) returns (commands: seq<String>)
    ensures test ==> commands == []
    ensures !test ==> commands == MapSeq(candidates, KillCommand)
  {
    commands := [];
    if test {
      return;
    }
    for k := 0 to |candidates|
      invariant commands == MapSeq(candidates[..k], KillCommand)
    {
      assert candidates[..k + 1] == candidates[..k] + [candidates[k]];
      MapSeqConcat(candidates[..k], [candidates[k]], KillCommand);
      commands := commands + [KillCommand(candidates[k])];
    }
    assert candidates[..|candidates|] == candidates;
  }

  /** The kill commands of a run, given the users the `who` loop adds. */
  function Plan(test: bool, ignore: String, linger: Option<seq<String>>, ps: String, loggedIn: set<String>)
    : seq<String>
  {
    var spared := IgnoreSet(ignore, linger);
    var procs := Listed(Split(Trim(ps), '\n'), spared);
    if test then [] else MapSeq(Candidates(procs, spared + loggedIn), KillCommand)
  }

  /** The script as written: it throws, killing nothing, when a `who` line has no leading name. */
  function KillsAsWritten(test: bool, ignore: String, linger: Option<seq<String>>, ps: String, who: String)
    : Result<seq<String>>
  {
    var loggedIn := LoggedInAsWritten(Split(Trim(who), '\n'));
    if loggedIn.Err? then Err(loggedIn.error) else Ok(Plan(test, ignore, linger, ps, loggedIn.value))
  }

  /** The script as intended. */
  function Kills(test: bool, ignore: String, linger: Option<seq<String>>, ps: String, who: String): seq<String>
  {
    Plan(test, ignore, linger, ps, LoggedIn(Split(Trim(who), '\n')))
  }

  /** With nobody logged in the script as written kills nothing, whatever `ps` shows. */
  lemma NobodyLoggedInKillsNothing(test: bool, ignore: String, linger: Option<seq<String>>, ps: String)
    ensures KillsAsWritten(test, ignore, linger, ps, "").Err?
  {
    NobodyLoggedInThrows();
  }

  /** The whole script, `who` lines without a name skipped. */
  method Run(test: bool, ignore: String, linger: Option<seq<String>>, ps: String, who: String)
    returns (commands: seq<String>)
    ensures commands == Kills(test, ignore, linger, ps, who)
  {
    var spared := IgnoreSet(ignore, linger);
    var procs := Listed(Split(Trim(ps), '\n'), spared);
    var all := AddLoggedIn(spared, Split(Trim(who), '\n'));
    commands := KillAll(Candidates(procs, all), test);
  }

  /** In test mode nothing is killed. */
  lemma TestKillsNothing(ignore: String, linger: Option<seq<String>>, ps: String, who: String)
    ensures Kills(true, ignore, linger, ps, who) == []
  {
  }

  /**
   * Outside test mode, a process is killed exactly when a `ps` line parses to it, its user is not
   * root, not named with `--ignore` and not lingering, and it has run for over three hours, or for
   * over a minute with an unindented command and a user not logged in.
   */
  lemma KilledExactly(ignore: String, linger: Option<seq<String>>, ps: String, who: String, p: Proc)
    ensures var lines := Split(Trim(ps), '\n');
            var loggedIn := LoggedIn(Split(Trim(who), '\n'));
            p in Candidates(Listed(lines, IgnoreSet(ignore, linger)), IgnoreSet(ignore, linger) + loggedIn)
            <==> (exists line :: line in lines && ParseLine(line) == Some(p))
                 && p.user != "root" && p.user !in IgnoreSet(ignore, linger)
                 && (p.etimes > 10800
                     || ((|p.command| == 0 || p.command[0] != ' ') && p.user !in loggedIn && p.etimes > 60))
  {
    ListedMembers(Split(Trim(ps), '\n'), IgnoreSet(ignore, linger), p);
  }

  /** The commands of a run are the kill commands of its candidates, in order. */
  lemma KillsOfCandidates(ignore: String, linger: Option<seq<String>>, ps: String, who: String)
    ensures var spared := IgnoreSet(ignore, linger);
            var c := Candidates(Listed(Split(Trim(ps), '\n'), spared), spared + LoggedIn(Split(Trim(who), '\n')));
            Kills(false, ignore, linger, ps, who) == MapSeq(c, KillCommand)
            && forall i :: 0 <= i < |c| ==> Kills(false, ignore, linger, ps, who)[i] == "kill -9 " + c[i].pid
  {
  }

  /** With nobody logged in, the script as intended still kills every candidate. */
  lemma NobodyLoggedInFixed(ignore: String, linger: Option<seq<String>>, ps: String)
    ensures var spared := IgnoreSet(ignore, linger);
            Kills(false, ignore, linger, ps, "")
            == MapSeq(Candidates(Listed(Split(Trim(ps), '\n'), spared), spared), KillCommand)
  {
    NobodyLoggedInThrows();
    assert LeadingName("").None?;
    assert LoggedIn([""]) == {};
    assert IgnoreSet(ignore, linger) + {} == IgnoreSet(ignore, linger);
  }
}
