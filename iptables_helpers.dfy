/**
 * The iptables document helpers of `src/helpers/iptables.js`. Unlike the parser of
 * `src/parsers/iptables.js`, these keep each `*table` block as its raw list of lines (comment
 * lines dropped), keyed by the table name, so that the line-list helpers can insert and remove
 * rule lines directly.
 */
module IptablesHelpers {
  import opened Base
  import opened Strings
  import opened MarkedBlocks
  import RuleLines
  import IptablesParser

  /** Blocks of lines keyed by table name, in first-assignment order. */
  type BlockDoc = seq<(String, seq<String>)>

  /** `s.substring(1)`. */
  function DropFirst(s: String): String
  {
    if |s| == 0 then "" else s[1..]
  }

  /** One '*'-piece: re-prefixed with '*', trimmed, split into lines, '#' lines dropped. */
  function BlockLines(piece: String): seq<String>
  {
    Filter(Split("*" + Trim(piece), '\n'), IptablesParser.NotComment)
  }

  /** A block keyed by its header line without the '*'. */
  function ParseBlock(piece: String): (String, seq<String>)
  {
    var lines := BlockLines(piece);
    (if |lines| == 0 then "" else DropFirst(lines[0]), lines)
  }

  /** `parseIptablesDoc`: the pieces after the first '*', parsed and keyed by table name. */
  function ParseDoc(doc: String): BlockDoc
  {
    Collect(MapSeq(Split(doc, '*')[1..], ParseBlock))
  }

  function BlockText(e: (String, seq<String>)): String
  {
    Join(e.1, "\n")
  }

  /**
   * `encodeIptablesDoc`: each block's lines joined, the blocks in `Object.values` order and
   * separated by a blank line, final newline.
   */
  function EncodeDoc(d: BlockDoc): String
  {
    Join(MapSeq(ObjectOrder(d), BlockText), "\n\n") + "\n"
  }

  function UidRule(userName: String, userID: String): String
  {
    "-A OUTPUT -m owner --uid-owner " + userID + " -j REJECT -m comment --comment \"" + userName + "\""
  }

  function NameRule(userName: String): String
  {
    "-A OUTPUT -m owner --uid-owner " + userName + " -j REJECT"
  }

  /**
   * `genRules`: the rule by uid, carrying the name as a comment, then the rule by name. Either
   * counts as present; the first is the one an append writes.
   */
  function GenRules(userName: String, userID: String): (r: seq<String>)
    ensures |r| == 2 && r[0] != r[1]
  {
    var uid := UidRule(userName, userID);
    var name := NameRule(userName);
    assert uid[|uid| - 1] == '"' && name[|name| - 1] == 'T';
    [uid, name]
  }

  // ---------------------------------------------------------------------------------------------
  // What the parser keeps
  // ---------------------------------------------------------------------------------------------

  /** A parsed block is never empty: its first line is its '*' header, and no line is a comment. */
  lemma ParseBlockHeader(piece: String)
    ensures var (name, lines) := ParseBlock(piece);
      |lines| > 0 && lines[0] == "*" + name
      && forall i :: 0 <= i < |lines| ==> '\n' !in lines[i] && IptablesParser.NotComment(lines[i])
  {
    var text := "*" + Trim(piece);
    var parts := Split(text, '\n');
    assert text[0] == '*';
    assert parts[0][0] == '*';
    assert IptablesParser.NotComment(parts[0]);
    var lines := Filter(parts, IptablesParser.NotComment);
    assert parts == [parts[0]] + parts[1..];
    assert lines[0] == parts[0];
    forall i | 0 <= i < |lines|
      ensures '\n' !in lines[i] && IptablesParser.NotComment(lines[i])
    {
      FilterMembers(parts, IptablesParser.NotComment, lines[i]);
    }
  }

  /** Split pieces after the first one do not depend on text before the first separator. */
  lemma {:induction false} SplitAfterPrefix(p: String, s: String, c: char)
    requires c !in p
    ensures Split(p + s, c)[1..] == Split(s, c)[1..]
  {
    if |p| > 0 {
      assert (p + s)[1..] == p[1..] + s;
      SplitAfterPrefix(p[1..], s, c);
    } else {
      assert p + s == s;
    }
  }

  /** Text before the first '*' is ignored. */
  lemma ParseDocIgnoresPreamble(preamble: String, doc: String)
    requires '*' !in preamble
    ensures ParseDoc(preamble + doc) == ParseDoc(doc)
  {
    SplitAfterPrefix(preamble, doc, '*');
  }

  // ---------------------------------------------------------------------------------------------
  // The encoder mirrors the parser
  // ---------------------------------------------------------------------------------------------

  /**
   * A block the parser reads back: its first line is `*name` with a visible first character and
   * no '*', no line holds a newline or starts with '#', later lines hold no '*', and the last line
   * ends with a visible character.
   */
  predicate WellFormedBlock(e: (String, seq<String>))
  {
    var (name, lines) := e;
    |lines| > 0 && lines[0] == "*" + name
    && |name| > 0 && !IsWhitespace(name[0]) && '*' !in name && !IsIndexKey(name)
    && (forall i :: 0 <= i < |lines| ==> '\n' !in lines[i] && IptablesParser.NotComment(lines[i]))
    && (forall i :: 1 <= i < |lines| ==> '*' !in lines[i])
    && |lines[|lines| - 1]| > 0 && !IsWhitespace(lines[|lines| - 1][|lines[|lines| - 1]| - 1])
  }

  predicate WellFormedDoc(d: BlockDoc)
  {
    DistinctKeys(d) && forall i :: 0 <= i < |d| ==> WellFormedBlock(d[i])
  }

  /** The text of a block after its leading '*'. */
  function BlockBody(e: (String, seq<String>)): String
  {
    DropFirst(BlockText(e))
  }

  lemma {:induction false} BlockBodyShape(e: (String, seq<String>))
    requires WellFormedBlock(e)
    ensures BlockText(e) == "*" + BlockBody(e)
    ensures '*' !in BlockBody(e) && SolidBody(BlockBody(e))
  {
    var (name, lines) := e;
    if |lines| == 1 {
      assert BlockText(e) == "*" + name;
    } else {
      var rest := Join(lines[1..], "\n");
      assert lines == [lines[0]] + lines[1..];
      assert BlockText(e) == "*" + (name + "\n" + rest);
      JoinNoChar(lines[1..], "\n", '*');
      assert BlockBody(e) == name + "\n" + rest;
    }
    JoinLast(lines, "\n");
  }

  /** Reading back the body of a well-formed block gives the block. */
  lemma {:induction false} BlockRoundTrip(e: (String, seq<String>), piece: String)
    requires WellFormedBlock(e) && Trim(piece) == BlockBody(e)
    ensures ParseBlock(piece) == e
  {
    BlockBodyShape(e);
    SplitJoin(e.1, '\n');
    FilterAllKept(e.1, IptablesParser.NotComment);
    assert BlockLines(piece) == e.1;
  }

  lemma {:induction false} EncodeDocMarked(d: BlockDoc)
    requires WellFormedDoc(d)
    ensures EncodeDoc(d) == Join(Marked(MapSeq(d, BlockBody), '*'), "\n\n") + "\n"
  {
    ObjectOrderPlain(d);
    var m := MapSeq(d, BlockText);
    var k := Marked(MapSeq(d, BlockBody), '*');
    forall i | 0 <= i < |d|
      ensures m[i] == k[i]
    {
      BlockBodyShape(d[i]);
    }
    assert m == k;
  }

  /** The encoder is the mirror image of the parser on well-formed documents. */
  lemma ParseEncodeDoc(d: BlockDoc)
    requires WellFormedDoc(d)
    ensures ParseDoc(EncodeDoc(d)) == d
  {
    if |d| == 0 {
      assert EncodeDoc(d) == "\n";
      SplitNoSeparator("\n", '*');
      assert MapSeq(Split("\n", '*')[1..], ParseBlock) == [];
    } else {
      var pieces := DocPieces(d);
      BlocksParse(d, pieces);
      CollectDistinct(d);
    }
  }

  /** A non-empty document splits on `*` into an empty head and one piece per block. */
  lemma DocPieces(d: BlockDoc) returns (pieces: seq<String>)
    requires WellFormedDoc(d) && |d| > 0
    ensures Split(EncodeDoc(d), '*')[1..] == pieces && |pieces| == |d|
    ensures MapSeq(pieces, Trim) == MapSeq(d, BlockBody)
  {
    var bodies := MapSeq(d, BlockBody);
    forall i | 0 <= i < |bodies|
      ensures '*' !in bodies[i] && SolidBody(bodies[i])
    {
      BlockBodyShape(d[i]);
    }
    EncodeDocMarked(d);
    SplitMarked(bodies, '*', "\n\n", "\n");
    pieces := Pieces(bodies, "\n\n", "\n");
    assert ([""] + pieces)[1..] == pieces;
  }

  /** Each piece, trimmed to its block's body, parses back to the block. */
  lemma BlocksParse(d: BlockDoc, pieces: seq<String>)
    requires WellFormedDoc(d) && |pieces| == |d| && MapSeq(pieces, Trim) == MapSeq(d, BlockBody)
    ensures MapSeq(pieces, ParseBlock) == d
  {
    forall i | 0 <= i < |d|
      ensures ParseBlock(pieces[i]) == d[i]
    {
      assert Trim(pieces[i]) == MapSeq(pieces, Trim)[i];
      BlockRoundTrip(d[i], pieces[i]);
    }
  }

  // ---------------------------------------------------------------------------------------------
  // The generated rules against the line-list helpers
  // ---------------------------------------------------------------------------------------------

  /**
   * Appending a user's rules to a block that holds neither writes only the uid rule, before the
   * block's last line, and the name rule stays absent.
   */
  lemma AppendWritesUidRule(lines: seq<String>, userName: String, userID: String)
    requires !RuleLines.HasRecord(lines, GenRules(userName, userID))
    ensures var (after, changed) := RuleLines.AfterInsertBeforeLast(lines, GenRules(userName, userID));
      changed && UidRule(userName, userID) in after && NameRule(userName) !in after
  {
    var record := GenRules(userName, userID);
    var (after, changed) := RuleLines.AfterInsertBeforeLast(lines, record);
    var k := RuleLines.BeforeLast(|lines|);
    assert after == lines[..k] + [record[0]] + lines[k..];
    assert after[k] == record[0];
    forall j | 0 <= j < |after|
      ensures after[j] != NameRule(userName)
    {
      if j < k {
        assert after[j] == lines[j];
      } else if j > k {
        assert after[j] == lines[j - 1];
      }
    }
  }
}
