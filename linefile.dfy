/**
 * The line-list files the bridge keeps (the Redis account owners, the port allocations, the
 * podman ignore list): read as `content.trim().split("\n")` and written back as
 * `lines.join("\n") + "\n"`.
 */
module LineFile {
  import opened Base
  import opened Strings

  /** `content.trim().split("\n")`. */
  function Lines(content: String): (r: seq<String>)
    ensures |r| >= 1
    ensures forall i :: 0 <= i < |r| ==> '\n' !in r[i]
  {
    Split(Trim(content), '\n')
  }

  /** `lines.join("\n") + "\n"`. */
  function Render(lines: seq<String>): String
  {
    Join(lines, "\n") + "\n"
  }

  /** A line that survives the trim of a file it starts or ends: non-empty, no newline, no edge whitespace. */
  predicate Solid(line: String)
  {
    |line| > 0 && '\n' !in line && !IsWhitespace(line[0]) && !IsWhitespace(line[|line| - 1])
  }

  /** Reading back what was written gives the lines, when the first and last survive the trim. */
  lemma ReadBack(lines: seq<String>)
    requires |lines| > 0 && |lines[0]| > 0 && !IsWhitespace(lines[0][0]) && Solid(lines[|lines| - 1])
    requires forall i :: 0 <= i < |lines| ==> '\n' !in lines[i]
    ensures Lines(Render(lines)) == lines
  {
    var j := Join(lines, "\n");
    JoinStart(lines, "\n");
    JoinLast(lines, "\n");
    assert j[0] == lines[0][0];
    assert AllWhitespace("\n");
    TrimDropsTrailing(j, "\n");
    SplitJoin(lines, '\n');
  }

  /** The lines of a file whose trim is not empty start with a line that survives the trim. */
  lemma FirstLineSolid(content: String)
    requires Trim(content) != ""
    ensures |Lines(content)[0]| > 0 && !IsWhitespace(Lines(content)[0][0])
  {
    var t := Trim(content);
    TrimSpec(content);
    JoinSplit(t, '\n');
    var l := Lines(content);
    JoinStart(l, "\n");
  }

  /**
   * Lines appended to a file and written back are read back after the old lines; an empty
   * file's single empty line is lost on the way.
   */
  lemma ReadAppended(content: String, added: seq<String>)
    requires |added| > 0 && forall i :: 0 <= i < |added| ==> Solid(added[i])
    ensures Lines(Render(Lines(content) + added))
            == if Trim(content) == "" then added else Lines(content) + added
  {
    var l := Lines(content);
    var k := l + added;
    assert k[|k| - 1] == added[|added| - 1];
    assert forall i :: 0 <= i < |k| ==> '\n' !in k[i] by {
      forall i | 0 <= i < |k| ensures '\n' !in k[i] {
        if i >= |l| {
          assert k[i] == added[i - |l|];
        }
      }
    }
    if Trim(content) != "" {
      FirstLineSolid(content);
      assert k[0] == l[0];
      ReadBack(k);
    } else {
      assert l == [""];
      var ja := Join(added, "\n");
      JoinConcat([""], added, "\n");
      assert Render(k) == "\n" + (ja + "\n");
      JoinStart(added, "\n");
      JoinLast(added, "\n");
      assert AllWhitespace("\n");
      TrimStartPrependWhitespace("\n", ja + "\n");
      TrimEndAppendWhitespace(ja, "\n");
      assert Trim(Render(k)) == ja;
      SplitJoin(added, '\n');
    }
  }
}
