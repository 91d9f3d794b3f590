/**
 * `IptablesExecutor` of `src/executor/iptables.js`: shows the parsed iptables document and adds
 * or removes a user's REJECT rule in the `filter` table of the IPv4 and IPv6 rule files.
 *
 * The executor works on two temporary files that `spawnSudoUtil('IPTABLES_GET')` fills from the
 * live IPv4 rules (`IP6TABLES_GET` would fill the IPv6 one). Those files are the fields of the
 * class below; the live IPv4 text is a parameter. Each locked body is one atomic step.
 */
module IptablesExecutor {
  import opened Base
  import opened Strings
  import opened IptablesParser

  /** The rule object the executor adds and removes for `user`. */
  function UserRule(user: String): Rule
  {
    [("-A", "OUTPUT"), ("-m", "owner"), ("--uid-owner", user), ("-j", "REJECT")]
  }

  /** `rules.find(x => x["--uid-owner"] === user)`. */
  function FirstOwnedBy(rules: seq<Rule>, user: String): (r: Option<Rule>)
    ensures r.None? <==> forall i :: 0 <= i < |rules| ==> Get(rules[i], "--uid-owner") != Some(user)
    ensures r.Some? ==> exists i :: (0 <= i < |rules| && rules[i] == r.value
      && Get(rules[i], "--uid-owner") == Some(user)
      && forall j :: 0 <= j < i ==> Get(rules[j], "--uid-owner") != Some(user))
  {
    if |rules| == 0 then None
    else if Get(rules[0], "--uid-owner") == Some(user) then Some(rules[0])
    else
      var r := FirstOwnedBy(rules[1..], user);
      assert r.Some? ==> exists i :: (1 <= i < |rules| && rules[i] == r.value
        && Get(rules[i], "--uid-owner") == Some(user)
        && forall j :: 1 <= j < i ==> Get(rules[j], "--uid-owner") != Some(user));
      r
  }

  /** `parsed.filter?.rules.find(...)` for one user. */
  function RuleOfUser(parsed: Doc, user: String): Option<Rule>
  {
    match Get(parsed, "filter")
    case None => None
    case Some(t) => FirstOwnedBy(t.rules, user)
  }

  /** `getByUsers`: one answer per requested user, in order. */
  function GetByUsers(parsed: Doc, users: seq<String>): (r: seq<Option<Rule>>)
    ensures |r| == |users|
    ensures forall i :: 0 <= i < |users| ==> r[i] == RuleOfUser(parsed, users[i])
  {
    if |users| == 0 then [] else [RuleOfUser(parsed, users[0])] + GetByUsers(parsed, users[1..])
  }

  /** `getRaw`: the parsed document encoded again, which reads back as itself when well formed. */
  function GetRaw(parsed: Doc): (raw: String)
    ensures WellFormedDoc(parsed) ==> ParseDoc(raw) == parsed
  {
    if WellFormedDoc(parsed) then ParseEncodeDoc(parsed); EncodeDoc(parsed) else EncodeDoc(parsed)
  }

  datatype Edit = Add | Del

  /**
   * `appendIfNotExist(rules, rule)` and `deleteIfNotExist(rules, rule)`: the list after the edit
   * and whether it changed. `src/util.js` does not define them; they are given the behaviour
   * their names and their callers state, comparing whole rules.
   */
  function ApplyEdit(rules: seq<Rule>, edit: Edit, rule: Rule): (r: (seq<Rule>, bool))
    ensures r.1 <==> (if edit.Add? then rule !in rules else rule in rules)
    ensures !r.1 ==> r.0 == rules
    ensures edit.Add? && r.1 ==> r.0 == rules + [rule]
    ensures edit.Del? ==> |r.0| == |rules| - (if r.1 then 1 else 0)
  {
    match edit
    case Add => if rule in rules then (rules, false) else (rules + [rule], true)
    case Del => if rule in rules then (RemoveFirst(rules, rule), true) else (rules, false)
  }

  const NoFilter: String := "TypeError: Cannot read properties of undefined (reading 'rules')"

  /**
   * One locked body on the text of a tmp file: parse it, edit the `filter` table's rules and, when
   * the edit changed them, encode the document again. The document keeps its table order.
   */
  function EditFile(text: String, edit: Edit, user: String): Result<(String, bool)>
  {
    var p := ParseDoc(text);
    match Get(p, "filter")
    case None => Err(NoFilter)
    case Some(t) =>
      var (rules, changed) := ApplyEdit(t.rules, edit, UserRule(user));
      if changed then Ok((EncodeDoc(Put(p, "filter", Table(t.chains, rules))), true))
      else Ok((text, false))
  }

  function StepMessage(changed: bool, v6: bool): String
  {
    match (changed, v6)
    case (true, false) => "Updated for iptables"
    case (true, true) => "Updated for ip6tables"
    case (false, false) => "Done unchanged for iptables"
    case (false, true) => "Done unchanged for ip6tables"
  }

  /**
   * What `setAddUser`/`setDelUser` return and leave in the two tmp files, as written: both steps
   * fetch with `IPTABLES_GET`, so the IPv4 file ends as the live IPv4 text and the IPv6 step edits
   * whatever the IPv6 tmp file held before.
   */
  function SetUserOutcome(edit: Edit, user: String, live4: String, tmp6: String)
    : (Result<String>, String, String)
  {
    match EditFile(live4, edit, user)
    case Err(e) => (Err(e), live4, tmp6)
    case Ok((_, changed4)) =>
      match EditFile(tmp6, edit, user)
      case Err(e) => (Err(e), live4, tmp6)
      case Ok((text6, changed6)) =>
        (Ok(StepMessage(changed4, false) + ", " + StepMessage(changed6, true)), live4, text6)
  }

  /** The same with the IPv6 step fetching the live IPv6 rules, as evidently intended. */
  function SetUserOutcomeFixed(edit: Edit, user: String, live4: String, live6: String, tmp6: String)
    : (Result<String>, String, String)
  {
    match EditFile(live4, edit, user)
    case Err(e) => (Err(e), live4, tmp6)
    case Ok((text4, changed4)) =>
      match EditFile(live6, edit, user)
      case Err(e) => (Err(e), text4, live6)
      case Ok((text6, changed6)) =>
        (Ok(StepMessage(changed4, false) + ", " + StepMessage(changed6, true)), text4, text6)
  }

  class Executor {
    /** `.tmp/iptables` */
    var tmp4: String
    /** `.tmp/ip6tables` */
    var tmp6: String

    constructor (tmp4: String, tmp6: String)
      ensures this.tmp4 == tmp4 && this.tmp6 == tmp6
    {
      this.tmp4 := tmp4;
      this.tmp6 := tmp6;
    }

    /** `spawnSudoUtil('IPTABLES_GET')`: the live IPv4 rules are copied into the IPv4 tmp file. */
    method IptablesGet(live4: String)
      modifies this
      ensures tmp4 == live4 && tmp6 == old(tmp6)
    {
      tmp4 := live4;
    }

    /** `spawnSudoUtil('IP6TABLES_GET')`: the live IPv6 rules are copied into the IPv6 tmp file. */
    method Ip6tablesGet(live6: String)
      modifies this
      ensures tmp6 == live6 && tmp4 == old(tmp4)
    {
      tmp6 := live6;
    }

    /** `getParsed`: the live IPv4 rules are fetched and the IPv4 tmp file is parsed. */
    method GetParsed(live4: String) returns (parsed: Doc)
      modifies this
      ensures parsed == ParseDoc(live4) && tmp4 == live4 && tmp6 == old(tmp6)
    {
      IptablesGet(live4);
      parsed := ParseDoc(tmp4);
    }

    /** One locked body: edit the rules of one tmp file and rewrite it only when they changed. */
    method EditTmp(v6: bool, edit: Edit, user: String) returns (r: Result<String>)
      modifies this
      ensures var text := if v6 then old(tmp6) else old(tmp4);
        match EditFile(text, edit, user)
        case Err(e) => r == Err(e) && tmp4 == old(tmp4) && tmp6 == old(tmp6)
        case Ok((newText, changed)) =>
          r == Ok(StepMessage(changed, v6))
          && (if v6 then tmp6 == newText && tmp4 == old(tmp4) else tmp4 == newText && tmp6 == old(tmp6))
    {
      var p := ParseDoc(if v6 then tmp6 else tmp4);
      var filter := Get(p, "filter");
      if filter.None? {
        return Err(NoFilter);
      }
      var t := filter.value;
      var rules, changed := ApplyEdit(t.rules, edit, UserRule(user)).0, ApplyEdit(t.rules, edit, UserRule(user)).1;
      if !changed {
        return Ok(StepMessage(false, v6));
      }
      var text := EncodeDoc(Put(p, "filter", Table(t.chains, rules)));
      if v6 {
        tmp6 := text;
      } else {
        tmp4 := text;
      }
      return Ok(StepMessage(true, v6));
    }

    /** `setAddUser` (Add) and `setDelUser` (Del) as written. */
    method SetUser(edit: Edit, user: String, live4: String) returns (r: Result<String>)
      modifies this
      ensures (r, tmp4, tmp6) == SetUserOutcome(edit, user, live4, old(tmp6))
    {
      IptablesGet(live4);
      var v4 := EditTmp(false, edit, user);
      if v4.Err? {
        return v4;
      }
      IptablesGet(live4);
      var v6 := EditTmp(true, edit, user);
      if v6.Err? {
        return v6;
      }
      return Ok(v4.value + ", " + v6.value);
    }

    /** `setAddUser`/`setDelUser` with the IPv6 step fetching the IPv6 rules. */
    method SetUserFixed(edit: Edit, user: String, live4: String, live6: String) returns (r: Result<String>)
      modifies this
      ensures (r, tmp4, tmp6) == SetUserOutcomeFixed(edit, user, live4, live6, old(tmp6))
    {
      IptablesGet(live4);
      var v4 := EditTmp(false, edit, user);
      if v4.Err? {
        return v4;
      }
      Ip6tablesGet(live6);
      var v6 := EditTmp(true, edit, user);
      if v6.Err? {
        return v6;
      }
      return Ok(v4.value + ", " + v6.value);
    }
  }

  // ---------------------------------------------------------------------------------------------
  // Properties
  // ---------------------------------------------------------------------------------------------

  /** An edit that reports no change leaves the file's text as it was. */
  lemma UnchangedKeepsText(text: String, edit: Edit, user: String)
    requires EditFile(text, edit, user).Ok? && !EditFile(text, edit, user).value.1
    ensures EditFile(text, edit, user).value.0 == text
    ensures Get(ParseDoc(text), "filter").Some?
  {
  }

  /** A document holding a `filter` table with its rules replaced. */
  function WithFilterRules(d: Doc, t: Table, rules: seq<Rule>): Doc
  {
    Put(d, "filter", Table(t.chains, rules))
  }

  lemma UserRuleWellFormed(user: String)
    requires IsToken(user)
    ensures WellFormedRule(UserRule(user))
  {
    var r := UserRule(user);
    assert r[0].0 == "-A";
  }

  /** Replacing the rules of a well-formed document's filter table by well-formed ones keeps it well formed. */
  lemma {:induction false} WithFilterWellFormed(d: Doc, t: Table, rules: seq<Rule>)
    requires WellFormedDoc(d) && Get(d, "filter") == Some(t)
    requires forall i :: 0 <= i < |rules| ==> WellFormedRule(rules[i])
    ensures WellFormedDoc(WithFilterRules(d, t, rules))
  {
    var d' := WithFilterRules(d, t, rules);
    PutDistinct(d, "filter", Table(t.chains, rules));
    GetWellFormed(d, "filter");
    forall i | 0 <= i < |d'|
      ensures WellFormedTable(d'[i].0, d'[i].1)
    {
      PutEntries(d, "filter", Table(t.chains, rules), i);
    }
  }

  /** A table read from a well-formed document is well formed. */
  lemma {:induction false} GetWellFormed(d: Doc, k: String)
    requires WellFormedDoc(d) && Get(d, k).Some?
    ensures WellFormedTable(k, Get(d, k).value)
  {
    if d[0].0 != k {
      assert WellFormedDoc(d[1..]);
      GetWellFormed(d[1..], k);
    }
  }

  /** The user's rule names the user as its `--uid-owner`. */
  lemma UserRuleOwner(user: String)
    ensures Get(UserRule(user), "--uid-owner") == Some(user)
  {
    var r := UserRule(user);
    var k := "--uid-owner";
    assert r[0].0 != k && r[1].0 != k && r[2].0 == k;
    assert r[1..][0] == r[1] && r[1..][1..] == r[2..] && r[2..][0] == r[2];
    assert Get(r, k) == Get(r[1..], k) == Get(r[2..], k);
  }

  /** Adding the user's rule to a well-formed document whose filter table lacks it. */
  lemma {:induction false} AddStep(d: Doc, t: Table, user: String)
    requires WellFormedDoc(d) && Get(d, "filter") == Some(t) && IsToken(user)
    requires UserRule(user) !in t.rules
    ensures var d' := WithFilterRules(d, t, t.rules + [UserRule(user)]);
      EditFile(EncodeDoc(d), Add, user) == Ok((EncodeDoc(d'), true))
      && ParseDoc(EncodeDoc(d')) == d'
      && Get(d', "filter") == Some(Table(t.chains, t.rules + [UserRule(user)]))
  {
    var rule := UserRule(user);
    ParseEncodeDoc(d);
    GetWellFormed(d, "filter");
    UserRuleWellFormed(user);
    var d' := WithFilterRules(d, t, t.rules + [rule]);
    WithFilterWellFormed(d, t, t.rules + [rule]);
    ParseEncodeDoc(d');
    GetPut(d, "filter", Table(t.chains, t.rules + [rule]), "filter");
  }

  /**
   * On a well-formed document whose filter table lacks the user's rule, adding the rule and then
   * deleting it both report a change, and the deletion gives back the original text.
   */
  lemma {:induction false} AddThenDelete(d: Doc, t: Table, user: String)
    requires WellFormedDoc(d) && Get(d, "filter") == Some(t) && IsToken(user)
    requires UserRule(user) !in t.rules
    ensures var added := EditFile(EncodeDoc(d), Add, user);
      added.Ok? && added.value.1
      && EditFile(added.value.0, Del, user) == Ok((EncodeDoc(d), true))
  {
    var rule := UserRule(user);
    AddStep(d, t, user);
    RemoveFirstAppended(t.rules, rule);
    PutTwice(d, "filter", Table(t.chains, t.rules + [rule]), t);
    assert t == Table(t.chains, t.rules);
    PutSame(d, "filter", t);
  }

  /**
   * As written, adding a user to a well-formed live IPv4 document that lacks the rule reports
   * "Updated for iptables", yet the IPv4 tmp file ends as the live text, still without the rule.
   */
  lemma {:induction false} AddedRuleLost(d: Doc, t: Table, user: String, tmp6: String)
    requires WellFormedDoc(d) && Get(d, "filter") == Some(t) && IsToken(user)
    requires UserRule(user) !in t.rules
    requires EditFile(tmp6, Add, user).Ok?
    ensures var (r, tmp4, _) := SetUserOutcome(Add, user, EncodeDoc(d), tmp6);
      r.Ok? && StartsWith(r.value, "Updated for iptables")
      && RuleOfUser(ParseDoc(tmp4), user) != Some(UserRule(user))
  {
    var text4 := EncodeDoc(d);
    AddStep(d, t, user);
    ParseEncodeDoc(d);
    V4UpdatedMessage(user, text4, tmp6);
    assert RuleOfUser(ParseDoc(text4), user) == FirstOwnedBy(t.rules, user);
    FirstOwnedNotRule(t.rules, user);
  }

  /** When the IPv4 edit changes the rules, the as-written result reports it first and the IPv4 file is the live text. */
  lemma V4UpdatedMessage(user: String, live4: String, tmp6: String)
    requires EditFile(live4, Add, user).Ok? && EditFile(live4, Add, user).value.1
    requires EditFile(tmp6, Add, user).Ok?
    ensures var (r, tmp4, _) := SetUserOutcome(Add, user, live4, tmp6);
      r.Ok? && StartsWith(r.value, "Updated for iptables") && tmp4 == live4
  {
    var e4, e6 := EditFile(live4, Add, user).value, EditFile(tmp6, Add, user).value;
    OutcomeOk(Add, user, live4, tmp6, e4, e6);
    StartsWithThree(StepMessage(e4.1, false), ", ", StepMessage(e6.1, true));
  }

  lemma OutcomeOk(edit: Edit, user: String, live4: String, tmp6: String, e4: (String, bool), e6: (String, bool))
    requires EditFile(live4, edit, user) == Ok(e4) && EditFile(tmp6, edit, user) == Ok(e6)
    ensures SetUserOutcome(edit, user, live4, tmp6)
            == (Ok(StepMessage(e4.1, false) + ", " + StepMessage(e6.1, true)), live4, e6.0)
  {
  }

  /** A list that lacks the user's rule does not yield it as the user's first rule. */
  lemma {:induction false} FirstOwnedNotRule(rules: seq<Rule>, user: String)
    requires UserRule(user) !in rules
    ensures FirstOwnedBy(rules, user) != Some(UserRule(user))
  {
  }

  /**
   * With the IPv6 step fetching its own rules, adding a user to a well-formed live IPv4 document
   * whose filter table names no rule for the user leaves the user's rule in the IPv4 tmp file.
   */
  lemma {:induction false} AddedRuleKept(d: Doc, t: Table, user: String, live6: String, tmp6: String)
    requires WellFormedDoc(d) && Get(d, "filter") == Some(t) && IsToken(user)
    requires forall i :: 0 <= i < |t.rules| ==> Get(t.rules[i], "--uid-owner") != Some(user)
    requires EditFile(live6, Add, user).Ok?
    ensures var (r, tmp4, _) := SetUserOutcomeFixed(Add, user, EncodeDoc(d), live6, tmp6);
      r.Ok? && StartsWith(r.value, "Updated for iptables")
      && RuleOfUser(ParseDoc(tmp4), user) == Some(UserRule(user))
  {
    var text4 := EncodeDoc(d);
    var d' := WithFilterRules(d, t, t.rules + [UserRule(user)]);
    UserRuleOwner(user);
    assert UserRule(user) !in t.rules;
    AddStep(d, t, user);
    V4UpdatedMessageFixed(user, text4, live6, tmp6);
    assert RuleOfUser(ParseDoc(EncodeDoc(d')), user) == FirstOwnedBy(t.rules + [UserRule(user)], user);
    OwnedAppended(t.rules, user);
  }

  /** When the IPv4 edit changes the rules, the corrected result reports it first and keeps the edited IPv4 text. */
  lemma V4UpdatedMessageFixed(user: String, live4: String, live6: String, tmp6: String)
    requires EditFile(live4, Add, user).Ok? && EditFile(live4, Add, user).value.1
    requires EditFile(live6, Add, user).Ok?
    ensures var (r, tmp4, _) := SetUserOutcomeFixed(Add, user, live4, live6, tmp6);
      r.Ok? && StartsWith(r.value, "Updated for iptables") && tmp4 == EditFile(live4, Add, user).value.0
  {
    var e4, e6 := EditFile(live4, Add, user).value, EditFile(live6, Add, user).value;
    OutcomeFixedOk(Add, user, live4, live6, tmp6, e4, e6);
    StartsWithThree(StepMessage(e4.1, false), ", ", StepMessage(e6.1, true));
  }

  lemma OutcomeFixedOk(edit: Edit, user: String, live4: String, live6: String, tmp6: String,
                       e4: (String, bool), e6: (String, bool))
    requires EditFile(live4, edit, user) == Ok(e4) && EditFile(live6, edit, user) == Ok(e6)
    ensures SetUserOutcomeFixed(edit, user, live4, live6, tmp6)
            == (Ok(StepMessage(e4.1, false) + ", " + StepMessage(e6.1, true)), e4.0, e6.0)
  {
  }

  /** Appending the user's rule to rules none of which name the user makes it the user's first rule. */
  lemma {:induction false} OwnedAppended(rules: seq<Rule>, user: String)
    requires forall i :: 0 <= i < |rules| ==> Get(rules[i], "--uid-owner") != Some(user)
    ensures FirstOwnedBy(rules + [UserRule(user)], user) == Some(UserRule(user))
  {
    UserRuleOwner(user);
    OwnedAppendedAt(rules, user, UserRule(user));
  }

  lemma {:induction false} OwnedAppendedAt(rules: seq<Rule>, user: String, rule: Rule)
    requires forall i :: 0 <= i < |rules| ==> Get(rules[i], "--uid-owner") != Some(user)
    requires Get(rule, "--uid-owner") == Some(user)
    ensures FirstOwnedBy(rules + [rule], user) == Some(rule)
  {
    if |rules| > 0 {
      assert (rules + [rule])[1..] == rules[1..] + [rule];
      OwnedAppendedAt(rules[1..], user, rule);
    }
  }
}
