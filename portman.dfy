/**
 * The port allocation executor (src/executor/portman.js): a file of `uid:port` lines recording
 * which user holds which port, listed, listed with owners and listening state, and extended.
 *
 * The listing command, the uid-to-name map and the set of listening ports are parameters.
 */
module Portman {
  import opened Base
  import opened Strings
  import opened LineFile

  /** `listPorts`: each line cut at its first ':', keeping the lines that have one. */
  function ListPorts(stdout: String): (r: seq<seq<String>>)
    ensures forall i :: 0 <= i < |r| ==> |r[i]| == 2
  {
    Pairs(Lines(stdout))
  }

  /** The cut lines of `lines` that came out as two parts, in order. */
  function Pairs(lines: seq<String>): (r: seq<seq<String>>)
    ensures forall i :: 0 <= i < |r| ==> |r[i]| == 2
  {
    if |lines| == 0 then []
    else
      var p := Cut(lines[0]);
      (if |p| == 2 then [p] else []) + Pairs(lines[1..])
  }

  /** `splitLimit(x, ":", 2)`. */
  function Cut(line: String): seq<String>
  {
    SplitLimit(line, {':'}, 2)
  }

  /** A line is listed exactly when it holds a ':', as the part before it and the rest. */
  lemma ListedLine(line: String)
    ensures |Cut(line)| == 2 <==> ':' in line
    ensures ':' in line ==> exists k, v :: Cut(line) == [k, v] && line == k + ":" + v && ':' !in k
  {
    var i := IndexOfChar(line, ':');
    if i >= 0 {
      CutAt(line, i);
    } else {
      NoColonWhole(line);
    }
  }

  /** The first ':' splits the line in two. */
  lemma CutAt(line: String, i: nat)
    requires i < |line| && line[i] == ':' && ':' !in line[..i]
    ensures Cut(line) == [line[..i], line[i + 1..]] && line == line[..i] + ":" + line[i + 1..]
  {
    var k, v := line[..i], line[i + 1..];
    assert line == k + [':'] + v;
    assert forall j :: 0 <= j < |k| ==> k[j] in k;
    SplitLimitFirst(k, ':', v, {':'});
  }

  /** A line without ':' is cut into one part. */
  lemma NoColonWhole(line: String)
    requires ':' !in line
    ensures Cut(line) == [line]
  {
    assert forall j :: 0 <= j < |line| ==> line[j] in line;
    SplitLimitNone(line, {':'}, 2);
  }

  /** The listing holds, in order of lines, every cut that came out as two parts and nothing else. */
  lemma {:induction false} ListedPairs(lines: seq<String>, x: seq<String>)
    ensures x in Pairs(lines) <==> exists line :: line in lines && x == Cut(line) && |x| == 2
  {
    if |lines| > 0 {
      ListedPairs(lines[1..], x);
      assert lines == [lines[0]] + lines[1..];
      if x != Cut(lines[0]) || |x| != 2 {
        if exists line :: line in lines && x == Cut(line) && |x| == 2 {
          var line :| line in lines && x == Cut(line) && |x| == 2;
          assert line in lines[1..];
        }
      }
    }
  }

  /** `uid:port` is listed as that pair. */
  lemma ListedEntry(uid: String, port: String)
    requires ':' !in uid
    ensures Cut(uid + ":" + port) == [uid, port]
  {
    assert uid + ":" + port == uid + [':'] + port;
    SplitLimitFirst(uid, ':', port, {':'});
  }

  /** One row of `listPortsExtended`: the owner's name (the uid when unknown), the port, listening. */
  datatype PortRow = PortRow(owner: String, port: String, listening: bool)

  /** `listPortsExtended`: each listed pair with its owner's name and whether the port listens. */
  function ListPortsExtended(ports: seq<seq<String>>, users: seq<(String, String)>, listens: set<String>)
    : (r: seq<PortRow>)
    requires forall i :: 0 <= i < |ports| ==> |ports[i]| == 2
    ensures |r| == |ports|
    ensures forall i :: 0 <= i < |r| ==>
              r[i].port == ports[i][1] && (r[i].listening <==> ports[i][1] in listens)
              && (var n := Get(users, ports[i][0]); r[i].owner == if n.Some? && n.value != "" then n.value else ports[i][0])
  {
    if |ports| == 0 then []
    else
      var n := Get(users, ports[0][0]);
      [PortRow(if n.Some? && n.value != "" then n.value else ports[0][0], ports[0][1], ports[0][1] in listens)]
      + ListPortsExtended(ports[1..], users, listens)
  }

  /** The line for one allocation. */
  function PortLine(uid: String, port: int): String
  {
    uid + ":" + IntToString(port)
  }

  /** The lines `writePorts` looks for, one per requested port. */
  function Wanted(uid: String, ports: seq<int>): (r: seq<String>)
    ensures |r| == |ports|
    ensures forall i :: 0 <= i < |ports| ==> r[i] == PortLine(uid, ports[i])
  {
    MapSeq(ports, (p: int) => PortLine(uid, p))
  }

  /** What `writePorts` returns and, when something was added, the file it writes. */
  datatype Written = Written(message: String, file: Option<String>)

  /** `writePorts`: every allocation not yet in the file is appended once, in order. */
  function WriteSpec(content: String, uid: String, ports: seq<int>): (r: Written)
  {
    var lines := Lines(content);
    var after := AppendMissing(lines, Wanted(uid, ports));
    if after == lines then Written("Ports allocation unchanged", None)
    else Written("Ports allocation added", Some(Render(after)))
  }

  /** The loop over `ports`, pushing each line not already present. */
  method WritePorts(content: String, uid: String, ports: seq<int>) returns (r: Written)
    ensures r == WriteSpec(content, uid, ports)
  {
    var lines := Lines(content);
    ghost var start := lines;
    ghost var wanted := Wanted(uid, ports);
    var changed := false;
    for k := 0 to |ports|
      invariant lines == AppendMissing(start, wanted[..k])
      invariant changed <==> lines != start
      invariant |start| <= |lines| && lines[..|start|] == start
    {
      AppendMissingNext(start, wanted, k);
      var findLine := uid + ":" + IntToString(ports[k]);
      assert findLine == wanted[k];
      if findLine !in lines {
        PrefixKept(start, lines, findLine);
        lines := lines + [findLine];
        changed := true;
      }
    }
    assert wanted[..|ports|] == wanted;
    if changed {
      return Written("Ports allocation added", Some(Render(lines)));
    }
    return Written("Ports allocation unchanged", None);
  }

  /** Looking for one more line appends it unless it is already there. */
  lemma AppendMissingNext<T>(list: seq<T>, items: seq<T>, k: nat)
    requires k < |items|
    ensures var b := AppendMissing(list, items[..k]);
            AppendMissing(list, items[..k + 1]) == if items[k] in b then b else b + [items[k]]
  {
    assert items[..k + 1][..k] == items[..k];
  }

  /** Appending keeps the original lines in front. */
  lemma PrefixKept<T>(start: seq<T>, lines: seq<T>, x: T)
    requires |start| <= |lines| && lines[..|start|] == start
    ensures |start| < |lines + [x]| && (lines + [x])[..|start|] == start
  {
    assert (lines + [x])[..|start|] == lines[..|start|];
  }

  /** A requested port's line is looked for; every line looked for is a requested port's. */
  lemma WantedMembers(uid: String, ports: seq<int>)
    ensures forall p :: p in ports ==> PortLine(uid, p) in Wanted(uid, ports)
    ensures forall x :: x in Wanted(uid, ports) ==> exists p :: p in ports && x == PortLine(uid, p)
  {
    var wanted := Wanted(uid, ports);
    forall p | p in ports ensures PortLine(uid, p) in wanted {
      var i :| 0 <= i < |ports| && ports[i] == p;
      assert wanted[i] == PortLine(uid, p);
    }
    forall x | x in wanted ensures exists p :: p in ports && x == PortLine(uid, p) {
      var i :| 0 <= i < |wanted| && wanted[i] == x;
      assert ports[i] in ports;
    }
  }

  /** The file written holds the old lines, then each requested allocation it lacked, once each. */
  lemma WriteAdds(content: String, uid: String, ports: seq<int>)
    ensures var after := AppendMissing(Lines(content), Wanted(uid, ports));
            |Lines(content)| <= |after|
            && (forall p :: p in ports ==> PortLine(uid, p) in after)
            && (forall x :: x in after ==> x in Lines(content) || exists p :: p in ports && x == PortLine(uid, p))
            && after[..|Lines(content)|] == Lines(content)
            && (forall i, j :: |Lines(content)| <= i < j < |after| ==> after[i] != after[j])
  {
    AppendMissingProps(Lines(content), Wanted(uid, ports));
    WantedMembers(uid, ports);
  }

  /** Nothing is written when every allocation is already there. */
  lemma WriteUnchanged(content: String, uid: String, ports: seq<int>)
    requires forall p :: p in ports ==> PortLine(uid, p) in Lines(content)
    ensures WriteSpec(content, uid, ports) == Written("Ports allocation unchanged", None)
  {
    WantedMembers(uid, ports);
    AppendMissingNone(Lines(content), Wanted(uid, ports));
  }

  /** An allocation line for a readable uid has no line break and no surrounding white space. */
  lemma PortLineSolid(uid: String, p: int)
    requires |uid| > 0 && '\n' !in uid && !IsWhitespace(uid[0])
    ensures Solid(PortLine(uid, p))
  {
    var d := IntToString(p);
    assert PortLine(uid, p) == uid + [':'] + d;
    if p < 0 {
      assert d == "-" + NatToString(-p);
    }
    assert d[|d| - 1] in d;
  }

  /**
   * Writing the same allocations again changes nothing: the file written is read back with every
   * allocation in it.
   */
  lemma WriteIdempotent(content: String, uid: String, ports: seq<int>)
    requires |uid| > 0 && '\n' !in uid && !IsWhitespace(uid[0])
    requires WriteSpec(content, uid, ports).file.Some?
    ensures WriteSpec(WriteSpec(content, uid, ports).file.value, uid, ports)
            == Written("Ports allocation unchanged", None)
  {
    var after := AppendMissing(Lines(content), Wanted(uid, ports));
    AllListed(content, uid, ports);
    WriteUnchanged(Render(after), uid, ports);
  }

  /** The file written lists every requested allocation. */
  lemma AllListed(content: String, uid: String, ports: seq<int>)
    requires |uid| > 0 && '\n' !in uid && !IsWhitespace(uid[0])
    requires WriteSpec(content, uid, ports).file.Some?
    ensures var after := AppendMissing(Lines(content), Wanted(uid, ports));
            forall p :: p in ports ==> PortLine(uid, p) in Lines(Render(after))
  {
    ReadWritten(content, uid, ports);
    WriteAdds(content, uid, ports);
    forall p | p in ports
      ensures PortLine(uid, p) in Lines(Render(AppendMissing(Lines(content), Wanted(uid, ports))))
    {
      PortListed(content, uid, ports, p);
    }
  }

  /** The written file reads back as the old lines and the appended ones (only those, from an empty file). */
  lemma ReadWritten(content: String, uid: String, ports: seq<int>)
    requires |uid| > 0 && '\n' !in uid && !IsWhitespace(uid[0])
    requires WriteSpec(content, uid, ports).file.Some?
    ensures var lines := Lines(content);
            var after := AppendMissing(lines, Wanted(uid, ports));
            |lines| < |after|
            && Lines(Render(after)) == if Trim(content) == "" then after[|lines|..] else after
  {
    var lines := Lines(content);
    var after := AppendMissing(lines, Wanted(uid, ports));
    WriteAdds(content, uid, ports);
    var added := after[|lines|..];
    SplitAfterPrefix(after, lines);
    AddedSolid(content, uid, ports);
    ReadAppended(content, added);
  }

  /** A sequence that starts with `p` is `p` followed by the rest. */
  lemma SplitAfterPrefix<T>(s: seq<T>, p: seq<T>)
    requires |p| <= |s| && s[..|p|] == p
    ensures s == p + s[|p|..]
  {
    assert s == s[..|p|] + s[|p|..];
  }

  /** A requested allocation is among the lines the written file reads back as. */
  lemma PortListed(content: String, uid: String, ports: seq<int>, p: int)
    requires |uid| > 0 && '\n' !in uid && !IsWhitespace(uid[0])
    requires p in ports
    requires var lines := Lines(content);
             var after := AppendMissing(lines, Wanted(uid, ports));
             |lines| < |after| && after[..|lines|] == lines && PortLine(uid, p) in after
             && Lines(Render(after)) == if Trim(content) == "" then after[|lines|..] else after
    ensures PortLine(uid, p) in Lines(Render(AppendMissing(Lines(content), Wanted(uid, ports))))
  {
    var lines := Lines(content);
    var after := AppendMissing(lines, Wanted(uid, ports));
    var x := PortLine(uid, p);
    if Trim(content) == "" {
      assert lines == [""];
      assert x == uid + [':'] + IntToString(p);
      var k :| 0 <= k < |after| && after[k] == x;
      assert after[..|lines|][0] == after[0];
      assert |x| > 0;
      assert after[|lines|..][k - 1] == x;
    }
  }

  /** The lines appended are allocation lines, each on a line of its own. */
  lemma AddedSolid(content: String, uid: String, ports: seq<int>)
    requires |uid| > 0 && '\n' !in uid && !IsWhitespace(uid[0])
    ensures var lines := Lines(content);
            var after := AppendMissing(lines, Wanted(uid, ports));
            |lines| <= |after| && forall i :: |lines| <= i < |after| ==> Solid(after[i])
  {
    var lines := Lines(content);
    var after := AppendMissing(lines, Wanted(uid, ports));
    WriteAdds(content, uid, ports);
    forall i | |lines| <= i < |after| ensures Solid(after[i]) {
      AppendedSolid(content, uid, ports, i);
    }
  }

  /** Every line appended is an allocation line. */
  lemma AppendedSolid(content: String, uid: String, ports: seq<int>, i: int)
    requires |uid| > 0 && '\n' !in uid && !IsWhitespace(uid[0])
    requires |Lines(content)| <= i < |AppendMissing(Lines(content), Wanted(uid, ports))|
    ensures Solid(AppendMissing(Lines(content), Wanted(uid, ports))[i])
  {
    var lines := Lines(content);
    var after := AppendMissing(lines, Wanted(uid, ports));
    AppendMissingProps(lines, Wanted(uid, ports));
    WantedMembers(uid, ports);
    assert after[i] in after;
    var p :| p in ports && after[i] == PortLine(uid, p);
    PortLineSolid(uid, p);
  }
}
