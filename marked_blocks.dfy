/**
 * Documents made of blocks that each begin with a marker character, such as the `*table`
 * sections of an iptables-save file, joined by a whitespace separator and closed by a whitespace
 * terminator. Both iptables readers split such a document on the marker and trim each piece;
 * the lemmas here say what those pieces are.
 */
module MarkedBlocks {
  import opened Base
  import opened Strings

  /** Each body with the marker put in front. */
  function Marked(bodies: seq<String>, c: char): (r: seq<String>)
    ensures |r| == |bodies|
    ensures forall i :: 0 <= i < |bodies| ==> r[i] == [c] + bodies[i]
  {
    if |bodies| == 0 then [] else [[c] + bodies[0]] + Marked(bodies[1..], c)
  }

  /** The pieces after the marker: each body followed by the separator, the last by the terminator. */
  function Pieces(bodies: seq<String>, sep: String, end: String): (r: seq<String>)
    requires |bodies| > 0
    ensures |r| == |bodies|
  {
    if |bodies| == 1 then [bodies[0] + end] else [bodies[0] + sep] + Pieces(bodies[1..], sep, end)
  }

  lemma {:induction false} PiecesAt(bodies: seq<String>, sep: String, end: String, i: nat)
    requires i < |bodies|
    ensures Pieces(bodies, sep, end)[i] == bodies[i] + (if i < |bodies| - 1 then sep else end)
  {
    if |bodies| > 1 && i > 0 {
      PiecesAt(bodies[1..], sep, end, i - 1);
    }
  }

  lemma {:induction false} MarkedAsPieces(bodies: seq<String>, c: char, sep: String, end: String)
    requires |bodies| > 0
    ensures Join(Marked(bodies, c), sep) + end == Join([""] + Pieces(bodies, sep, end), [c])
  {
    if |bodies| > 1 {
      MarkedAsPieces(bodies[1..], c, sep, end);
      var rest := Pieces(bodies[1..], sep, end);
      assert Marked(bodies, c)[1..] == Marked(bodies[1..], c);
      assert ([""] + rest)[1..] == rest;
      assert ([""] + Pieces(bodies, sep, end))[1..] == Pieces(bodies, sep, end);
      assert Pieces(bodies, sep, end)[1..] == rest;
      calc {
        Join(Marked(bodies, c), sep) + end;
        [c] + bodies[0] + sep + (Join(Marked(bodies[1..], c), sep) + end);
        [c] + bodies[0] + sep + Join([""] + rest, [c]);
        [c] + (bodies[0] + sep) + [c] + Join(rest, [c]);
        [c] + Join(Pieces(bodies, sep, end), [c]);
        Join([""] + Pieces(bodies, sep, end), [c]);
      }
    }
  }

  /** A body that trimming leaves alone once whitespace is appended to it. */
  predicate SolidBody(b: String)
  {
    |b| > 0 && !IsWhitespace(b[0]) && !IsWhitespace(b[|b| - 1])
  }

  /**
   * Splitting a marked document on its marker gives one empty piece (the text before the first
   * marker) and then one piece per block, which trims back to the block's body.
   */
  lemma SplitMarked(bodies: seq<String>, c: char, sep: String, end: String)
    requires |bodies| > 0
    requires c !in sep && c !in end && AllWhitespace(sep) && AllWhitespace(end)
    requires forall i :: 0 <= i < |bodies| ==> c !in bodies[i] && SolidBody(bodies[i])
    ensures Split(Join(Marked(bodies, c), sep) + end, c) == [""] + Pieces(bodies, sep, end)
    ensures MapSeq(Pieces(bodies, sep, end), Trim) == bodies
  {
    MarkedAsPieces(bodies, c, sep, end);
    var pieces := [""] + Pieces(bodies, sep, end);
    forall i | 0 <= i < |pieces|
      ensures c !in pieces[i]
    {
      if i > 0 {
        PiecesAt(bodies, sep, end, i - 1);
      }
    }
    SplitJoin(pieces, c);
    forall i | 0 <= i < |bodies|
      ensures Trim(Pieces(bodies, sep, end)[i]) == bodies[i]
    {
      PiecesAt(bodies, sep, end, i);
      TrimDropsTrailing(bodies[i], if i < |bodies| - 1 then sep else end);
    }
  }

  /** A marked document starts with the marker, so nothing precedes the first block. */
  lemma MarkedStart(bodies: seq<String>, c: char, sep: String, end: String)
    requires |bodies| > 0
    ensures var doc := Join(Marked(bodies, c), sep) + end;
      |doc| > 0 && doc[0] == c && IndexOfChar(doc, c) == 0
  {
    JoinStart(Marked(bodies, c), sep);
    var doc := Join(Marked(bodies, c), sep) + end;
    assert doc[0] == Join(Marked(bodies, c), sep)[0];
  }
}
