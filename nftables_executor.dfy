/**
 * `IptablesExecutor` of `src/executor/nftables.js`: asks whether a user's reject rule is present
 * and adds or removes it in the nftables ruleset.
 *
 * `spawnSudoUtil('FIREWALL_GET')` copies the live ruleset into the tmp file and
 * `spawnSudoUtil('FIREWALL_SET')` applies the tmp file; both are fields of the class below. Each
 * locked body is one atomic step.
 */
module NftablesExecutor {
  import opened Base
  import opened Strings
  import opened RuleLines
  import opened NftablesHelpers

  /** `getByUser`: whether some parsed line is the rule generated for the user. */
  function GetByUser(parsed: seq<String>, userName: String, userID: String): (r: bool)
    ensures r <==> RuleFor(userName, userID) in parsed
  {
    HasRecord(parsed, GenRules(userName, userID))
  }

  const Unchanged: String := "Done unchanged for nftables"
  const Updated: String := "Updated for nftables"

  /**
   * What `setAddUser` returns and leaves in the tmp file and the live ruleset: the rule is pushed
   * onto the parsed list and, when that changed it, the list is written and applied.
   */
  function AddOutcome(live: String, userName: String, userID: String): (String, String, String)
  {
    var (rules, changed) := AfterPush(ParseDoc(live), GenRules(userName, userID));
    if changed then (Updated, EncodeDoc(rules), EncodeDoc(rules)) else (Unchanged, live, live)
  }

  /** What `setDelUser` returns and leaves in the tmp file and the live ruleset. */
  function DelOutcome(live: String, userName: String, userID: String): (String, String, String)
  {
    var (rules, changed) := AfterDelete(ParseDoc(live), GenRules(userName, userID));
    if changed then (Updated, EncodeDoc(rules), EncodeDoc(rules)) else (Unchanged, live, live)
  }

  class Executor {
    /** The live nftables ruleset. */
    var live: String
    /** `.tmp/nftables` */
    var tmp: String

    constructor (live: String, tmp: String)
      ensures this.live == live && this.tmp == tmp
    {
      this.live := live;
      this.tmp := tmp;
    }

    /** `spawnSudoUtil('FIREWALL_GET')`. */
    method FirewallGet()
      modifies this
      ensures tmp == old(live) && live == old(live)
    {
      tmp := live;
    }

    /** `spawnSudoUtil('FIREWALL_SET')`. */
    method FirewallSet()
      modifies this
      ensures live == old(tmp) && tmp == old(tmp)
    {
      live := tmp;
    }

    /** `getParsed`: the rule lines of the freshly fetched ruleset. */
    method GetParsed() returns (parsed: seq<String>)
      modifies this
      ensures parsed == ParseDoc(old(live)) && tmp == old(live) && live == old(live)
    {
      FirewallGet();
      parsed := ParseDoc(tmp);
    }

    /** `setAddUser`. */
    method SetAddUser(userName: String, userID: String) returns (msg: String)
      modifies this
      ensures (msg, tmp, live) == AddOutcome(old(live), userName, userID)
    {
      FirewallGet();
      var rules := new RuleList(ParseDoc(tmp));
      var changed := rules.PushIfRecordNotExist(GenRules(userName, userID));
      if !changed {
        return Unchanged;
      }
      tmp := EncodeDoc(rules.lines);
      FirewallSet();
      return Updated;
    }

    /** `setDelUser`. */
    method SetDelUser(userName: String, userID: String) returns (msg: String)
      modifies this
      ensures (msg, tmp, live) == DelOutcome(old(live), userName, userID)
    {
      FirewallGet();
      var rules := new RuleList(ParseDoc(tmp));
      var changed := rules.DeleteIfRecordExist(GenRules(userName, userID));
      if !changed {
        return Unchanged;
      }
      tmp := EncodeDoc(rules.lines);
      FirewallSet();
      return Updated;
    }
  }

  // ---------------------------------------------------------------------------------------------
  // Properties
  // ---------------------------------------------------------------------------------------------

  /** A rule line holds no newline when the user's name and uid hold none. */
  predicate SingleLine(userName: String, userID: String)
  {
    '\n' !in userName && '\n' !in userID
  }

  lemma RuleForLine(userName: String, userID: String)
    requires SingleLine(userName, userID)
    ensures IsAddRule(RuleFor(userName, userID)) && '\n' !in RuleFor(userName, userID)
  {
    assert GenRules(userName, userID)[0] == RuleFor(userName, userID);
    var head := "add rule inet filter WHITELIST-SET skuid ";
    var tail := " counter reject comment \"";
    assert '\n' !in head && '\n' !in tail && '\n' !in "\"";
    assert RuleFor(userName, userID) == head + userID + tail + userName + "\"";
  }

  /**
   * `setAddUser` reports no change, and leaves the ruleset alone, exactly when the rule is already
   * there; otherwise the applied ruleset reads back as the old rules with the rule appended.
   */
  lemma AddEffect(live: String, userName: String, userID: String)
    requires SingleLine(userName, userID)
    ensures var (msg, tmp, live') := AddOutcome(live, userName, userID);
      var before := ParseDoc(live);
      (msg == Unchanged <==> GetByUser(before, userName, userID))
      && (msg == Unchanged ==> live' == live && tmp == live)
      && (msg != Unchanged ==>
            msg == Updated && tmp == live' && ParseDoc(live') == before + [RuleFor(userName, userID)])
  {
    var before := ParseDoc(live);
    var (rules, changed) := AfterPush(before, GenRules(userName, userID));
    if changed {
      RuleForLine(userName, userID);
      ParseEncodeDoc(rules);
    }
  }

  /**
   * `setDelUser` reports no change exactly when the rule is absent; otherwise the applied ruleset
   * reads back as the old rules with one occurrence of the rule removed, the first.
   */
  lemma DelEffect(live: String, userName: String, userID: String)
    ensures var (msg, tmp, live') := DelOutcome(live, userName, userID);
      var before := ParseDoc(live);
      var rule := RuleFor(userName, userID);
      (msg == Unchanged <==> !GetByUser(before, userName, userID))
      && (msg == Unchanged ==> live' == live && tmp == live)
      && (msg != Unchanged ==>
            msg == Updated && tmp == live' && ParseDoc(live') == RemoveFirst(before, rule))
  {
    var before := ParseDoc(live);
    var (rules, changed) := AfterDelete(before, GenRules(userName, userID));
    if changed {
      DelRules(live, userName, userID);
    }
  }

  /** A deletion that changed something removes the first copy of the rule, and its text reads back. */
  lemma DelRules(live: String, userName: String, userID: String)
    requires AfterDelete(ParseDoc(live), GenRules(userName, userID)).1
    ensures var rules := AfterDelete(ParseDoc(live), GenRules(userName, userID)).0;
            rules == RemoveFirst(ParseDoc(live), RuleFor(userName, userID))
            && ParseDoc(EncodeDoc(rules)) == rules
  {
    var before := ParseDoc(live);
    var rule := RuleFor(userName, userID);
    var record := GenRules(userName, userID);
    var rules := AfterDelete(before, record).0;
    var i := FindIndex(before, InRecord(record));
    RecordIndex(before, record);
    assert before[i] == rule && rule !in before[..i];
    assert rules == before[..i] + before[i + 1..];
    RemoveFirstAt(before, rule, i);
    RemovedLines(before, i);
    ParseEncodeDoc(rules);
  }

  /** Dropping one line of a parsed ruleset leaves only single-line add rules. */
  lemma RemovedLines(before: seq<String>, i: nat)
    requires i < |before|
    requires forall j :: 0 <= j < |before| ==> IsAddRule(before[j]) && '\n' !in before[j]
    ensures var rules := before[..i] + before[i + 1..];
            forall j :: 0 <= j < |rules| ==> IsAddRule(rules[j]) && '\n' !in rules[j]
  {
    var rules := before[..i] + before[i + 1..];
    forall j | 0 <= j < |rules|
      ensures IsAddRule(rules[j]) && '\n' !in rules[j]
    {
      if j < i {
        assert rules[j] == before[j];
      } else {
        assert rules[j] == before[j + 1];
      }
    }
  }

  /**
   * Adding a user's rule the ruleset lacks and then deleting it gives back the rules the ruleset
   * held, and both report an update.
   */
  lemma AddThenDel(live: String, userName: String, userID: String)
    requires SingleLine(userName, userID)
    requires !GetByUser(ParseDoc(live), userName, userID)
    ensures var (msg1, _, live1) := AddOutcome(live, userName, userID);
      var (msg2, _, live2) := DelOutcome(live1, userName, userID);
      msg1 == Updated && msg2 == Updated && ParseDoc(live2) == ParseDoc(live)
  {
    var before := ParseDoc(live);
    var record := GenRules(userName, userID);
    var pushed := AfterPush(before, record).0;
    RuleForLine(userName, userID);
    ParseEncodeDoc(pushed);
    PushThenDelete(before, record);
    ParseEncodeDoc(before);
  }

  /** A second `setAddUser` for the same user changes nothing. */
  lemma AddTwice(live: String, userName: String, userID: String)
    requires SingleLine(userName, userID)
    ensures var (_, _, live1) := AddOutcome(live, userName, userID);
      AddOutcome(live1, userName, userID) == (Unchanged, live1, live1)
  {
    var before := ParseDoc(live);
    var (_, _, live1) := AddOutcome(live, userName, userID);
    AddEffect(live, userName, userID);
    if before != ParseDoc(live1) {
      assert ParseDoc(live1)[|before|] == RuleFor(userName, userID);
    }
    AddEffect(live1, userName, userID);
  }
}
