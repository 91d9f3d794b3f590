/**
 * The nftables document helpers of `src/helpers/nftables.js`: a ruleset file is read as its
 * `add rule` lines, written back behind an `nft -f` shebang, and a user's rule is one
 * `skuid` line carrying the uid and, in its comment, the user name.
 */
module NftablesHelpers {
  import opened Base
  import opened Strings

  predicate IsAddRule(line: String)
  {
    StartsWith(line, "add rule")
  }

  /** `parseIptablesDoc`: the lines that start with `add rule`, in order. */
  function ParseDoc(doc: String): (rules: seq<String>)
    ensures forall i :: 0 <= i < |rules| ==> IsAddRule(rules[i]) && '\n' !in rules[i]
  {
    var lines := Split(doc, '\n');
    forall x | x in Filter(lines, IsAddRule)
      ensures IsAddRule(x) && '\n' !in x
    {
      FilterMembers(lines, IsAddRule, x);
    }
    Filter(lines, IsAddRule)
  }

  const Shebang: String := "#!/usr/sbin/nft -f"

  /** `encodeIptablesDoc`: the shebang, a blank line, the rules one per line, a final newline. */
  function EncodeDoc(rules: seq<String>): String
  {
    Shebang + "\n\n" + Join(rules, "\n") + "\n"
  }

  function RuleFor(userName: String, userID: String): String
  {
    "add rule inet filter WHITELIST-SET skuid " + userID + " counter reject comment \"" + userName + "\""
  }

  /** `genRules`: the single rule that rejects the user's traffic. */
  function GenRules(userName: String, userID: String): (r: seq<String>)
    ensures |r| == 1 && IsAddRule(r[0])
  {
    var rule := RuleFor(userName, userID);
    assert rule == "add rule" + rule[8..];
    [rule]
  }

  /** A header, an empty line, the rules and an empty last line, joined as lines. */
  lemma {:induction false} HeaderLines(h: String, rules: seq<String>)
    requires |rules| > 0
    ensures Join([h, ""] + (rules + [""]), "\n") == h + "\n\n" + Join(rules, "\n") + "\n"
  {
    var text := Join(rules, "\n");
    JoinConcat([h, ""], rules + [""], "\n");
    JoinAppendOne(rules, "", "\n");
    assert Join([h, ""], "\n") == h + "\n";
    calc {
      Join([h, ""] + (rules + [""]), "\n");
      (h + "\n") + "\n" + (text + "\n" + "");
      h + "\n\n" + text + "\n";
    }
  }

  /** With no rules the encoding is the shebang followed by three newlines. */
  lemma EncodeEmptyLines()
    ensures EncodeDoc([]) == Join([Shebang, "", "", ""], "\n")
  {
    assert Join(["", ""], "\n") == "\n";
    assert Join(["", "", ""], "\n") == "\n\n";
    assert Join([Shebang, "", "", ""], "\n") == Shebang + "\n" + "\n\n";
  }

  /** Parsing an encoded list of rules gives the list back. */
  lemma ParseEncodeDoc(rules: seq<String>)
    requires forall i :: 0 <= i < |rules| ==> IsAddRule(rules[i]) && '\n' !in rules[i]
    ensures ParseDoc(EncodeDoc(rules)) == rules
  {
    assert !IsAddRule(Shebang) by {
      assert Shebang[..8][0] == '#';
    }
    assert !IsAddRule("");
    if |rules| == 0 {
      EncodeEmptyLines();
      var lines := [Shebang, "", "", ""];
      SplitJoin(lines, '\n');
      FilterNoneKept(lines, IsAddRule);
      return;
    }
    HeaderLines(Shebang, rules);
    var lines := [Shebang, ""] + (rules + [""]);
    SplitJoin(lines, '\n');
    FilterAppend([Shebang, ""], rules + [""], IsAddRule);
    FilterAppend(rules, [""], IsAddRule);
    FilterAllKept(rules, IsAddRule);
    assert Filter([Shebang, ""], IsAddRule) == [];
    assert Filter([""], IsAddRule) == [];
  }

  /** Two texts that end in the same suffix and whose fronts carry no space split the same way. */
  lemma {:induction false} SpaceFreeFront(a: String, b: String, x: String, y: String)
    requires ' ' !in a && ' ' !in b && |x| > 0 && |y| > 0 && x[0] == ' ' && y[0] == ' '
    requires a + x == b + y
    ensures a == b && x == y
  {
    IndexOfCharAfter(a, x, ' ');
    IndexOfCharAfter(b, y, ' ');
    assert |a| == |b|;
    assert a == (a + x)[..|a|] && b == (b + y)[..|b|];
    assert x == (a + x)[|a|..] && y == (b + y)[|b|..];
  }

  /** The generated rule determines the user: its uid (which has no space) and its name. */
  lemma RuleForInjective(n1: String, id1: String, n2: String, id2: String)
    requires ' ' !in id1 && ' ' !in id2
    requires RuleFor(n1, id1) == RuleFor(n2, id2)
    ensures n1 == n2 && id1 == id2
  {
    var head, tail, q := "add rule inet filter WHITELIST-SET skuid ", " counter reject comment \"", "\"";
    RuleParts(n1, id1, head, tail, q);
    RuleParts(n2, id2, head, tail, q);
    var x1, x2 := tail + (n1 + q), tail + (n2 + q);
    PrefixCancel(head, id1 + x1, id2 + x2);
    assert x1[0] == tail[0] == ' ' && x2[0] == tail[0];
    SpaceFreeFront(id1, id2, x1, x2);
    PrefixCancel(tail, n1 + q, n2 + q);
    SuffixCancel(n1, n2, q);
  }

  lemma RuleParts(n: String, id: String, head: String, tail: String, q: String)
    requires head == "add rule inet filter WHITELIST-SET skuid " && tail == " counter reject comment \"" && q == "\""
    ensures RuleFor(n, id) == head + (id + (tail + (n + q)))
  {
  }
}
