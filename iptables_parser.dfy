/**
 * The iptables-save document parser and encoder of `src/parsers/iptables.js`.
 *
 * A document is a sequence of tables `*name`, each holding chain lines (`:CHAIN ...`) and rule
 * lines (`-A CHAIN -k v ...`) and closed by `COMMIT`. A rule is read as a JavaScript object built
 * by pairing its words; the document as an object keyed by table name. The encoder is meant to be
 * the mirror image of the parser, and `ParseEncodeDoc` proves that it is on documents whose names
 * and words carry no separator characters.
 */
module IptablesParser {
  import opened Base
  import opened Strings
  import opened MarkedBlocks

  /** A parsed rule: option words paired as (key, value), in first-assignment order. */
  type Rule = seq<(String, String)>

  datatype Table = Table(chains: seq<String>, rules: seq<Rule>)

  /** A parsed document: tables keyed by name, in first-assignment order. */
  type Doc = seq<(String, Table)>

  predicate IsWord(w: String) { |w| > 0 }

  predicate NotComment(line: String) { !StartsWith(line, "#") }

  predicate IsChainLine(line: String) { StartsWith(line, ":") }

  predicate IsRuleLine(line: String) { StartsWith(line, "-A") }

  /**
   * The pairing loop of `parseRule`, from word `i` on: word i is a key, word i + 1 (or '' when
   * missing) its trimmed value, and a later assignment to a key overwrites the earlier one.
   */
  function ParseWords(words: seq<String>, i: nat, acc: Rule): Rule
    decreases |words| - i
  {
    if i >= |words| then acc
    else
      var v := if i + 1 < |words| then words[i + 1] else "";
      ParseWords(words, i + 2, Put(acc, words[i], Trim(v)))
  }

  /** `parseRule`: split on single spaces, drop empty words, pair the rest. */
  function ParseRule(line: String): Rule
  {
    ParseWords(Filter(Split(line, ' '), IsWord), 0, [])
  }

  /** `parseTable`: the first kept line is the name (`undefined` when there is none). */
  function ParseTable(block: String): (String, Table)
  {
    var lines := MapSeq(Filter(Split(block, '\n'), NotComment), Trim);
    var name := if |lines| == 0 then "undefined" else lines[0];
    var body := if |lines| == 0 then [] else lines[1..];
    (name, Table(Filter(body, IsChainLine), MapSeq(Filter(body, IsRuleLine), ParseRule)))
  }

  /**
   * `parseIptablesDoc`: from the first '*' on (the whole text when there is none, as
   * `substring(-1)` does), split on '*', trim, drop empty blocks, parse each and key it by name.
   */
  function ParseDoc(doc: String): Doc
  {
    var start := IndexOfChar(doc, '*');
    var from := if start < 0 then doc else doc[start..];
    Collect(MapSeq(Filter(MapSeq(Split(from, '*'), Trim), IsWord), ParseTable))
  }

  function EncodePair(e: (String, String)): String
  {
    e.0 + " " + e.1
  }

  /** Every `key value` pair in assignment order, joined by spaces. */
  function EncodeRuleInOrder(r: Rule): String
  {
    Join(MapSeq(r, EncodePair), " ")
  }

  /**
   * `encodeRule`: every `key value` pair in the order `Object.keys` lists the keys, joined by
   * spaces. Integer-like keys come first.
   */
  function EncodeRule(r: Rule): String
  {
    EncodeRuleInOrder(ObjectOrder(r))
  }

  /** `encodeTable`: the header, the chains then the rules one per line, and `COMMIT`. */
  function EncodeTable(name: String, t: Table): String
  {
    "*" + name + "\n" + Join(t.chains + MapSeq(t.rules, EncodeRule), "\n") + "\nCOMMIT"
  }

  function EncodeEntry(e: (String, Table)): String
  {
    EncodeTable(e.0, e.1)
  }

  /** `encodeIPTables`: tables in `Object.keys` order, separated by a blank line, with a final newline. */
  function EncodeDoc(d: Doc): String
  {
    Join(MapSeq(ObjectOrder(d), EncodeEntry), "\n\n") + "\n"
  }

  // ---------------------------------------------------------------------------------------------
  // Behaviour of the parser on its own
  // ---------------------------------------------------------------------------------------------

  /** A key given again as the last pair of a rule ends up with that last value. */
  lemma {:induction false} ParseWordsLastWins(words: seq<String>, i: nat, acc: Rule, k: String, v: String)
    requires |words| % 2 == 0 && i % 2 == 0 && i <= |words|
    ensures Get(ParseWords(words + [k, v], i, acc), k) == Some(Trim(v))
    decreases |words| - i
  {
    var w := words + [k, v];
    if i == |words| {
      assert w[i] == k && w[i + 1] == v;
      GetPut(acc, k, Trim(v), k);
    } else {
      assert w[i] == words[i] && w[i + 1] == words[i + 1];
      ParseWordsLastWins(words, i + 2, Put(acc, words[i], Trim(words[i + 1])), k, v);
    }
  }

  /** A trailing key with no value word maps to ''. */
  lemma {:induction false} ParseWordsDanglingKey(words: seq<String>, i: nat, acc: Rule, k: String)
    requires |words| % 2 == 0 && i % 2 == 0 && i <= |words|
    ensures Get(ParseWords(words + [k], i, acc), k) == Some("")
    decreases |words| - i
  {
    var w := words + [k];
    if i == |words| {
      assert w[i] == k;
      GetPut(acc, k, Trim(""), k);
    } else {
      assert w[i] == words[i] && w[i + 1] == words[i + 1];
      ParseWordsDanglingKey(words, i + 2, Put(acc, words[i], Trim(words[i + 1])), k);
    }
  }

  /** Text before the first '*' is ignored. */
  lemma ParseDocIgnoresPreamble(preamble: String, doc: String)
    requires '*' !in preamble
    requires |doc| > 0 && doc[0] == '*'
    ensures ParseDoc(preamble + doc) == ParseDoc(doc)
  {
    IndexOfCharAfter(preamble, doc, '*');
    assert (preamble + doc)[|preamble|..] == doc;
  }

  /** Lines starting with '#' never reach a table. */
  lemma ParseTableSkipsComments(block: String, comment: String)
    requires StartsWith(comment, "#") && '\n' !in comment
    ensures ParseTable(comment + "\n" + block) == ParseTable(block)
  {
    SplitAtFirst(comment, '\n', block);
    assert comment + "\n" + block == comment + ['\n'] + block;
    assert Filter([comment] + Split(block, '\n'), NotComment) == Filter(Split(block, '\n'), NotComment);
  }

  // ---------------------------------------------------------------------------------------------
  // The round trip parse(encode(d)) == d
  // ---------------------------------------------------------------------------------------------

  /** A word that survives splitting on spaces, newlines and '*' unchanged. */
  predicate IsToken(t: String)
  {
    |t| > 0 && NoWhitespace(t) && '*' !in t
  }

  /** Every key and value a token. */
  predicate Tokens(r: Rule)
  {
    forall i :: 0 <= i < |r| ==> IsToken(r[i].0) && IsToken(r[i].1)
  }

  /** Distinct keys, and every key and value a token. */
  predicate TokenRule(r: Rule)
  {
    DistinctKeys(r) && Tokens(r)
  }

  /** A rule that starts with `-A` and has no integer-like key, which would be written first. */
  predicate WellFormedRule(r: Rule)
  {
    |r| > 0 && StartsWith(r[0].0, "-A") && TokenRule(r) && PlainKeys(r)
  }

  predicate WellFormedChain(c: String)
  {
    StartsWith(c, ":") && !IsWhitespace(c[|c| - 1]) && '\n' !in c && '*' !in c
  }

  predicate WellFormedTable(name: String, t: Table)
  {
    IsToken(name) && !StartsWith(name, "#") && !IsIndexKey(name)
    && (forall i :: 0 <= i < |t.chains| ==> WellFormedChain(t.chains[i]))
    && (forall i :: 0 <= i < |t.rules| ==> WellFormedRule(t.rules[i]))
  }

  /**
   * A table the parser reads back line by line: a well-formed name and chains, and rules each
   * written as one clean line, whether or not that line starts with `-A`.
   */
  predicate LineTable(name: String, t: Table)
  {
    IsToken(name) && !StartsWith(name, "#")
    && (forall i :: 0 <= i < |t.chains| ==> WellFormedChain(t.chains[i]))
    && (forall i :: 0 <= i < |t.rules| ==> CleanLine(EncodeRule(t.rules[i])))
  }

  /** A well-formed table is one the parser reads line by line. */
  lemma WellFormedLines(name: String, t: Table)
    requires WellFormedTable(name, t)
    ensures LineTable(name, t)
  {
    forall i | 0 <= i < |t.rules|
      ensures CleanLine(EncodeRule(t.rules[i]))
    {
      EncodedRuleLine(t.rules[i]);
    }
  }

  predicate WellFormedDoc(d: Doc)
  {
    DistinctKeys(d) && forall i :: 0 <= i < |d| ==> WellFormedTable(d[i].0, d[i].1)
  }

  /** The words of a rule in order: key, value, key, value, ... */
  function Flatten(r: Rule): (w: seq<String>)
    ensures |w| == 2 * |r|
  {
    if |r| == 0 then [] else [r[0].0, r[0].1] + Flatten(r[1..])
  }

  lemma {:induction false} FlattenTokens(r: Rule)
    requires forall i :: 0 <= i < |r| ==> IsToken(r[i].0) && IsToken(r[i].1)
    ensures forall i :: 0 <= i < |Flatten(r)| ==> IsToken(Flatten(r)[i])
  {
    if |r| > 0 {
      FlattenTokens(r[1..]);
    }
  }

  lemma {:induction false} EncodeRuleFlat(r: Rule)
    ensures EncodeRuleInOrder(r) == Join(Flatten(r), " ")
  {
    if |r| > 1 {
      EncodeRuleFlat(r[1..]);
      assert MapSeq(r, EncodePair)[1..] == MapSeq(r[1..], EncodePair);
      JoinConcat([r[0].0, r[0].1], Flatten(r[1..]), " ");
    }
  }

  lemma {:induction false} FlattenAt(r: Rule, i: nat)
    requires i < |r|
    ensures Flatten(r)[2 * i] == r[i].0 && Flatten(r)[2 * i + 1] == r[i].1
  {
    if i > 0 {
      FlattenAt(r[1..], i - 1);
    }
  }

  /** Pairing the flattened words of a rule from pair i on completes its first i pairs. */
  lemma {:induction false} ParseWordsFlat(r: Rule, i: nat)
    requires i <= |r|
    requires DistinctKeys(r)
    requires forall j :: 0 <= j < |r| ==> IsToken(r[j].1)
    ensures ParseWords(Flatten(r), 2 * i, r[..i]) == r
    decreases |r| - i
  {
    if i < |r| {
      ParseWordsFlatStep(r, i);
      ParseWordsFlat(r, i + 1);
    } else {
      assert r[..i] == r;
    }
  }

  /** Pairing the words of pair `i` adds that pair to the first `i`. */
  lemma ParseWordsFlatStep(r: Rule, i: nat)
    requires i < |r|
    requires DistinctKeys(r)
    requires forall j :: 0 <= j < |r| ==> IsToken(r[j].1)
    ensures ParseWords(Flatten(r), 2 * i, r[..i]) == ParseWords(Flatten(r), 2 * i + 2, r[..i + 1])
  {
    FlattenAt(r, i);
    assert IsToken(r[i].1);
    TrimOfTrimmed(r[i].1);
    forall j | 0 <= j < i
      ensures r[..i][j].0 != r[i].0
    {
    }
    PutFresh(r[..i], r[i].0, r[i].1);
    assert r[..i] + [r[i]] == r[..i + 1];
  }

  /**
   * Parsing a rule encoded in assignment order gives it back, for any number of pairs and any
   * keys: the mirror image the encoder is meant to be.
   */
  lemma RuleRoundTripInOrder(r: Rule)
    requires TokenRule(r)
    ensures ParseRule(EncodeRuleInOrder(r)) == r
  {
    EncodeRuleFlat(r);
    FlattenTokens(r);
    var w := Flatten(r);
    if |r| == 0 {
      assert Filter([""], IsWord) == [];
    } else {
      forall i | 0 <= i < |w|
        ensures ' ' !in w[i]
      {
        NoWhitespaceExcludes(w[i], ' ');
      }
      SplitJoin(w, ' ');
      FilterAllKept(w, IsWord);
    }
    assert r[..0] == [];
    ParseWordsFlat(r, 0);
  }

  /** Parsing an encoded rule with no integer-like key gives it back. */
  lemma RuleRoundTrip(r: Rule)
    requires TokenRule(r) && PlainKeys(r)
    ensures ParseRule(EncodeRule(r)) == r
  {
    ObjectOrderPlain(r);
    RuleRoundTripInOrder(r);
  }

  /** An encoded well-formed rule is one trimmed line starting with `-A`, free of '*'. */
  lemma EncodedRuleLine(r: Rule)
    requires WellFormedRule(r)
    ensures var e := EncodeRule(r);
      |e| > 0 && IsRuleLine(e) && !IsChainLine(e) && NotComment(e) && Trim(e) == e
      && '\n' !in e && '*' !in e
  {
    ObjectOrderPlain(r);
    EncodeRuleFlat(r);
    FlattenTokens(r);
    var w := Flatten(r);
    var e := EncodeRule(r);
    JoinStart(w, " ");
    JoinLast(w, " ");
    assert StartsWith(w[0], "-A");
    assert e[..2] == w[0][..2];
    assert IsWhitespace(w[|w| - 1][|w[|w| - 1]| - 1]) == false;
    forall i | 0 <= i < |w|
      ensures '\n' !in w[i]
    {
      NoWhitespaceExcludes(w[i], '\n');
    }
    JoinNoChar(w, " ", '\n');
    JoinNoChar(w, " ", '*');
    TrimOfTrimmed(e);
  }

  /** A line that splitting, comment filtering and trimming leave alone. */
  predicate CleanLine(l: String)
  {
    '\n' !in l && '*' !in l && NotComment(l) && Trim(l) == l
  }

  /** The lines between the header and `COMMIT` (one empty line when there are none). */
  function BodyLines(t: Table): seq<String>
  {
    var lines := t.chains + MapSeq(t.rules, EncodeRule);
    if |lines| == 0 then [""] else lines
  }

  /** The text of a table after its '*', as lines. */
  lemma TableTextLines(name: String, t: Table)
    ensures EncodeTable(name, t) == "*" + Join([name] + BodyLines(t) + ["COMMIT"], "\n")
  {
    var body := BodyLines(t);
    var j := Join(t.chains + MapSeq(t.rules, EncodeRule), "\n");
    JoinConcat([name], body + ["COMMIT"], "\n");
    JoinConcat(body, ["COMMIT"], "\n");
    BodyJoin(t);
    assert [name] + body + ["COMMIT"] == [name] + (body + ["COMMIT"]);
    TableTextShape(name, j);
  }

  lemma TableTextShape(a: String, b: String)
    ensures "*" + a + "\n" + b + "\nCOMMIT" == "*" + ((a + "\n") + ((b + "\n") + "COMMIT"))
  {
    assert "\nCOMMIT" == "\n" + "COMMIT";
  }

  /** An empty table's single empty line joins to the same text as no line at all. */
  lemma BodyJoin(t: Table)
    ensures Join(BodyLines(t), "\n") == Join(t.chains + MapSeq(t.rules, EncodeRule), "\n")
  {
  }

  lemma EncodedRulesShape(rules: seq<Rule>)
    requires forall i :: 0 <= i < |rules| ==> WellFormedRule(rules[i])
    ensures forall i :: 0 <= i < |rules| ==>
      CleanLine(MapSeq(rules, EncodeRule)[i]) && IsRuleLine(MapSeq(rules, EncodeRule)[i])
      && !IsChainLine(MapSeq(rules, EncodeRule)[i])
  {
    forall i | 0 <= i < |rules|
      ensures CleanLine(EncodeRule(rules[i])) && IsRuleLine(EncodeRule(rules[i]))
        && !IsChainLine(EncodeRule(rules[i]))
    {
      EncodedRuleLine(rules[i]);
    }
  }

  lemma ChainsShape(chains: seq<String>)
    requires forall i :: 0 <= i < |chains| ==> WellFormedChain(chains[i])
    ensures forall i :: 0 <= i < |chains| ==>
      CleanLine(chains[i]) && IsChainLine(chains[i]) && !IsRuleLine(chains[i])
  {
    forall i | 0 <= i < |chains|
      ensures CleanLine(chains[i]) && !IsRuleLine(chains[i])
    {
      TrimOfTrimmed(chains[i]);
    }
  }

  /** Any encoded non-empty token rule is a clean line, whatever its key order. */
  lemma TokenRuleLine(r: Rule)
    requires |r| > 0 && Tokens(r) && NotComment(EncodeRule(r))
    ensures CleanLine(EncodeRule(r))
  {
    var o := ObjectOrder(r);
    OrderedTokens(r);
    EncodeRuleFlat(o);
    FlattenTokens(o);
    var w := Flatten(o);
    var e := EncodeRule(r);
    JoinStart(w, " ");
    JoinLast(w, " ");
    assert IsWhitespace(w[|w| - 1][|w[|w| - 1]| - 1]) == false;
    forall i | 0 <= i < |w|
      ensures '\n' !in w[i]
    {
      NoWhitespaceExcludes(w[i], '\n');
    }
    JoinNoChar(w, " ", '\n');
    JoinNoChar(w, " ", '*');
    TrimOfTrimmed(e);
  }

  /** The entries of a token rule, in `Object.keys` order, are as many and still tokens. */
  lemma OrderedTokens(r: Rule)
    requires |r| > 0 && Tokens(r)
    ensures var o := ObjectOrder(r);
      |o| > 0 && forall i :: 0 <= i < |o| ==> o[i] in r && IsToken(o[i].0) && IsToken(o[i].1)
  {
    var o := ObjectOrder(r);
    forall i | 0 <= i < |o|
      ensures o[i] in r && IsToken(o[i].0) && IsToken(o[i].1)
    {
      var x := o[i];
      var idx := Filter(r, IsIndexEntry);
      if i < |SortByIndex(idx)| {
        assert x in SortByIndex(idx);
        FilterMembers(r, IsIndexEntry, x);
      } else {
        assert x in Filter(r, IsNamedEntry);
        FilterMembers(r, IsNamedEntry, x);
      }
    }
    if IsIndexKey(r[0].0) {
      ObjectOrderIndexFirst(r, 0);
    } else {
      FilterMembers(r, IsNamedEntry, r[0]);
    }
  }

  lemma BodyLinesClean(name: String, t: Table)
    requires LineTable(name, t)
    ensures forall i :: 0 <= i < |BodyLines(t)| ==> CleanLine(BodyLines(t)[i])
  {
    ChainsShape(t.chains);
    var enc := MapSeq(t.rules, EncodeRule);
    if |t.chains| + |t.rules| == 0 {
      assert BodyLines(t) == [""];
      assert CleanLine("");
    } else {
      assert BodyLines(t) == t.chains + enc;
      forall i | 0 <= i < |BodyLines(t)|
        ensures CleanLine(BodyLines(t)[i])
      {
        if i >= |t.chains| {
          assert BodyLines(t)[i] == enc[i - |t.chains|];
        }
      }
    }
  }

  lemma BodyLinesFilter(name: String, t: Table)
    requires WellFormedTable(name, t)
    ensures Filter(BodyLines(t) + ["COMMIT"], IsChainLine) == t.chains
    ensures Filter(BodyLines(t) + ["COMMIT"], IsRuleLine) == MapSeq(t.rules, EncodeRule)
  {
    var enc := MapSeq(t.rules, EncodeRule);
    CommitIsNoEntry();
    assert Filter(["COMMIT"], IsChainLine) == [];
    assert Filter(["COMMIT"], IsRuleLine) == [];
    FilterAppend(BodyLines(t), ["COMMIT"], IsChainLine);
    FilterAppend(BodyLines(t), ["COMMIT"], IsRuleLine);
    if |t.chains| + |t.rules| == 0 {
      assert Filter([""], IsChainLine) == [];
      assert Filter([""], IsRuleLine) == [];
    } else {
      LinesFilter(t.chains, enc, t.rules);
    }
  }

  lemma CommitIsNoEntry()
    ensures !IsChainLine("COMMIT") && !IsRuleLine("COMMIT") && CleanLine("COMMIT")
  {
    assert "COMMIT"[..1] != ":" by { assert "COMMIT"[..1][0] == 'C'; }
    assert "COMMIT"[..2] != "-A" by { assert "COMMIT"[..2][0] == 'C'; }
    assert "COMMIT"[..1] != "#" by { assert "COMMIT"[..1][0] == 'C'; }
    TrimOfTrimmed("COMMIT");
  }

  lemma LinesFilter(chains: seq<String>, enc: seq<String>, rules: seq<Rule>)
    requires forall i :: 0 <= i < |chains| ==> WellFormedChain(chains[i])
    requires forall i :: 0 <= i < |rules| ==> WellFormedRule(rules[i])
    requires enc == MapSeq(rules, EncodeRule)
    ensures Filter(chains + enc, IsChainLine) == chains
    ensures Filter(chains + enc, IsRuleLine) == enc
  {
    EncodedRulesShape(rules);
    ChainsShape(chains);
    FilterAppend(chains, enc, IsChainLine);
    FilterAppend(chains, enc, IsRuleLine);
    FilterAllKept(chains, IsChainLine);
    FilterNoneKept(chains, IsRuleLine);
    FilterNoneKept(enc, IsChainLine);
    FilterAllKept(enc, IsRuleLine);
  }

  /** Every line of an encoded well-formed table, header and `COMMIT` included, is clean. */
  lemma TableLinesClean(name: String, t: Table)
    requires LineTable(name, t)
    ensures var all := [name] + BodyLines(t) + ["COMMIT"];
      forall i :: 0 <= i < |all| ==> CleanLine(all[i])
  {
    var all := [name] + BodyLines(t) + ["COMMIT"];
    BodyLinesClean(name, t);
    NoWhitespaceExcludes(name, '\n');
    TrimOfTrimmed(name);
    assert CleanLine(name);
    assert CleanLine("COMMIT");
    forall i | 0 <= i < |all|
      ensures CleanLine(all[i])
    {
      if 0 < i < |all| - 1 {
        assert all[i] == BodyLines(t)[i - 1];
      }
    }
  }

  /** Parsing the text of an encoded well-formed table gives its name and contents back. */
  lemma TableRoundTrip(name: String, t: Table)
    requires WellFormedTable(name, t)
    ensures EncodeTable(name, t)[0] == '*'
    ensures ParseTable(EncodeTable(name, t)[1..]) == (name, t)
  {
    WellFormedLines(name, t);
    TableLines(name, t);
    var all := [name] + BodyLines(t) + ["COMMIT"];
    assert all[1..] == BodyLines(t) + ["COMMIT"];
    BodyLinesFilter(name, t);
    var enc := MapSeq(t.rules, EncodeRule);
    forall i | 0 <= i < |t.rules|
      ensures ParseRule(enc[i]) == t.rules[i]
    {
      RuleRoundTrip(t.rules[i]);
    }
    assert MapSeq(enc, ParseRule) == t.rules;
  }

  // ---------------------------------------------------------------------------------------------
  // Rules with an integer-like key
  // ---------------------------------------------------------------------------------------------

  /**
   * `Object.keys` lists an integer-like key first, so a rule that has one is written starting
   * with that key rather than with `-A`.
   */
  lemma IndexKeyNotRuleLine(r: Rule, i: nat)
    requires i < |r| && IsIndexKey(r[i].0)
    ensures |EncodeRule(r)| > 0 && IsDigit(EncodeRule(r)[0])
    ensures !IsRuleLine(EncodeRule(r)) && NotComment(EncodeRule(r))
  {
    var o := ObjectOrder(r);
    ObjectOrderIndexFirst(r, i);
    var parts := MapSeq(o, EncodePair);
    JoinStart(parts, " ");
    var e := EncodeRule(r);
    assert parts[0] == o[0].0 + " " + o[0].1;
    assert e[0] == o[0].0[0];
    assert IsDigit(e[0]);
    assert e[..1] != "#" by { assert e[..1][0] == e[0]; }
  }

  /**
   * As written, a table one of whose rules has an integer-like key reads back with fewer rules:
   * the `indexOf('-A') === 0` filter drops that rule's line.
   */
  lemma IndexKeyRuleDropped(name: String, t: Table, j: nat, i: nat)
    requires LineTable(name, t)
    requires j < |t.rules| && i < |t.rules[j]| && IsIndexKey(t.rules[j][i].0)
    ensures |ParseTable(EncodeTable(name, t)[1..]).1.rules| < |t.rules|
  {
    TableLines(name, t);
    var enc := MapSeq(t.rules, EncodeRule);
    IndexKeyNotRuleLine(t.rules[j], i);
    ChainsShape(t.chains);
    CommitIsNoEntry();
    assert BodyLines(t) == t.chains + enc;
    FilterAppend(BodyLines(t), ["COMMIT"], IsRuleLine);
    FilterAppend(t.chains, enc, IsRuleLine);
    assert Filter(["COMMIT"], IsRuleLine) == [];
    FilterNoneKept(t.chains, IsRuleLine);
    FilterShorter(enc, IsRuleLine, j);
    var all := [name] + BodyLines(t) + ["COMMIT"];
    assert all[1..] == BodyLines(t) + ["COMMIT"];
  }

  /**
   * `-A INPUT -m recent --update --seconds 60 --hitcount 4 --name SSH --rsource -j DROP`, paired
   * word by word: `--update` takes `--seconds` as its value, so "60" and "4" become keys.
   */
  function RecentRule(): Rule
  {
    [("-A", "INPUT"), ("-m", "recent"), ("--update", "--seconds"), ("60", "--hitcount"),
     ("4", "--name"), ("SSH", "--rsource"), ("-j", "DROP")]
  }

  /** As written, a filter table holding only that rule reads back with no rule at all. */
  lemma RecentRuleDropped()
    ensures ParseTable(EncodeTable("filter", Table([], [RecentRule()]))[1..]).1.rules == []
  {
    var r := RecentRule();
    SixtyIsIndex();
    IndexKeyNotRuleLine(r, 3);
    RecentRuleTokens();
    TokenRuleLine(r);
    FilterName();
    SingleRuleLines("filter", r);
    IndexKeyRuleDropped("filter", Table([], [r]), 0, 3);
  }

  lemma SixtyIsIndex()
    ensures IsIndexKey(RecentRule()[3].0)
  {
    var k := RecentRule()[3].0;
    assert k == "60";
    assert k[..1] == "6";
    assert DigitsValue(k) == 60;
  }

  /** A word of letters, digits and dashes is a token. */
  lemma PlainWord(w: String)
    requires |w| > 0 && forall i :: 0 <= i < |w| ==> w[i] == '-' || 'a' <= w[i] <= 'z' || 'A' <= w[i] <= 'Z' || '0' <= w[i] <= '9'
    ensures IsToken(w)
  {
  }

  lemma RecentRuleTokens()
    ensures Tokens(RecentRule())
  {
    var r := RecentRule();
    PlainWord("-A"); PlainWord("INPUT"); PlainWord("-m"); PlainWord("recent");
    PlainWord("--update"); PlainWord("--seconds"); PlainWord("60"); PlainWord("--hitcount");
    PlainWord("4"); PlainWord("--name"); PlainWord("SSH"); PlainWord("--rsource");
    PlainWord("-j"); PlainWord("DROP");
  }

  /** A table holding a single rule written as a clean line is read line by line. */
  lemma SingleRuleLines(name: String, r: Rule)
    requires IsToken(name) && !StartsWith(name, "#") && CleanLine(EncodeRule(r))
    ensures LineTable(name, Table([], [r]))
  {
  }

  lemma FilterName()
    ensures IsToken("filter") && !StartsWith("filter", "#")
  {
    PlainWord("filter");
    assert "filter"[..1] != "#" by { assert "filter"[..1][0] == 'f'; }
  }

  /** The lines the parser reads from an encoded table are its name, its body lines and `COMMIT`. */
  lemma TableLines(name: String, t: Table)
    requires LineTable(name, t)
    ensures EncodeTable(name, t)[0] == '*'
    ensures MapSeq(Filter(Split(EncodeTable(name, t)[1..], '\n'), NotComment), Trim) == [name] + BodyLines(t) + ["COMMIT"]
  {
    TableTextLines(name, t);
    var all := [name] + BodyLines(t) + ["COMMIT"];
    assert EncodeTable(name, t)[1..] == Join(all, "\n");
    TableLinesClean(name, t);
    SplitJoin(all, '\n');
    FilterAllKept(all, NotComment);
    assert MapSeq(all, Trim) == all;
  }

  /** The text of an encoded table after its leading '*'. */
  function TableText(e: (String, Table)): String
  {
    EncodeEntry(e)[1..]
  }

  /** The text of a well-formed table holds no '*' and begins and ends with a visible character. */
  lemma TableTextSolid(e: (String, Table))
    requires WellFormedTable(e.0, e.1)
    ensures '*' !in TableText(e) && SolidBody(TableText(e))
  {
    var name, t := e.0, e.1;
    TableTextLines(name, t);
    WellFormedLines(name, t);
    TableLinesClean(name, t);
    var all := [name] + BodyLines(t) + ["COMMIT"];
    assert TableText(e) == Join(all, "\n");
    JoinNoChar(all, "\n", '*');
    JoinStart(all, "\n");
    JoinLast(all, "\n");
  }

  /** An encoded document is the marked document of its table texts, in `Object.keys` order. */
  lemma EncodeDocMarked(d: Doc)
    ensures EncodeDoc(d) == Join(Marked(MapSeq(ObjectOrder(d), TableText), '*'), "\n\n") + "\n"
  {
    var o := ObjectOrder(d);
    var m := MapSeq(o, EncodeEntry);
    var k := Marked(MapSeq(o, TableText), '*');
    forall i | 0 <= i < |o|
      ensures m[i] == k[i]
    {
      assert EncodeEntry(o[i]) == "*" + TableText(o[i]);
    }
    assert m == k;
  }

  /** The encoder is the mirror image of the parser on well-formed documents. */
  lemma ParseEncodeDoc(d: Doc)
    requires WellFormedDoc(d)
    ensures ParseDoc(EncodeDoc(d)) == d
  {
    if |d| == 0 {
      EmptyDocRoundTrip();
    } else {
      DocBlocks(d);
      TextsParse(d);
      CollectDistinct(d);
    }
  }

  /** The empty document encodes as a lone newline, which parses back as no table. */
  lemma EmptyDocRoundTrip()
    ensures ParseDoc(EncodeDoc([])) == []
  {
    var doc := EncodeDoc([]);
    assert doc == "\n";
    assert IndexOfChar(doc, '*') == -1;
    SplitNoSeparator(doc, '*');
    assert MapSeq(Split(doc, '*'), Trim) == [""];
    assert Filter([""], IsWord) == [];
  }

  /** The blocks the parser keeps from an encoded document are the texts of its tables, in order. */
  lemma DocBlocks(d: Doc)
    requires WellFormedDoc(d) && |d| > 0
    ensures var doc := EncodeDoc(d);
            var start := IndexOfChar(doc, '*');
            var from := if start < 0 then doc else doc[start..];
            Filter(MapSeq(Split(from, '*'), Trim), IsWord) == MapSeq(d, TableText)
  {
    var doc := EncodeDoc(d);
    var texts := MapSeq(d, TableText);
    TextsSolid(d);
    NamesPlain(d);
    EncodeDocMarked(d);
    MarkedStart(texts, '*', "\n\n", "\n");
    assert doc[0..] == doc;
    SeparatorsBlank();
    SplitMarked(texts, '*', "\n\n", "\n");
    var pieces := Pieces(texts, "\n\n", "\n");
    assert MapSeq([""] + pieces, Trim) == [""] + texts;
    FilterAllKept(texts, IsWord);
    assert Filter([""], IsWord) == [];
    FilterAppend([""], texts, IsWord);
  }

  /** No table name of a well-formed document is integer-like, so the tables keep their order. */
  lemma NamesPlain(d: Doc)
    requires WellFormedDoc(d)
    ensures ObjectOrder(d) == d
  {
    ObjectOrderPlain(d);
  }

  /** The blank line between tables and the final newline are whitespace without a '*'. */
  lemma SeparatorsBlank()
    ensures '*' !in "\n\n" && '*' !in "\n" && AllWhitespace("\n\n") && AllWhitespace("\n")
  {
    assert "\n\n"[0] == '\n' && "\n\n"[1] == '\n';
  }

  lemma TextsSolid(d: Doc)
    requires WellFormedDoc(d)
    ensures forall i :: 0 <= i < |d| ==> '*' !in MapSeq(d, TableText)[i] && SolidBody(MapSeq(d, TableText)[i])
  {
    forall i | 0 <= i < |d|
      ensures '*' !in TableText(d[i]) && SolidBody(TableText(d[i]))
    {
      TableTextSolid(d[i]);
    }
  }

  /** Each table's text parses back as the table. */
  lemma TextsParse(d: Doc)
    requires WellFormedDoc(d)
    ensures MapSeq(MapSeq(d, TableText), ParseTable) == d
  {
    var texts := MapSeq(d, TableText);
    forall j | 0 <= j < |d|
      ensures ParseTable(texts[j]) == d[j]
    {
      TableRoundTrip(d[j].0, d[j].1);
    }
  }
}
