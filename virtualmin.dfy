/**
 * `src/executor/virtualmin.js`: the parser of `virtualmin list-domains --multiline` output in
 * `getDomainInfo`, the argument vector `execFormatted` builds from option objects, and the
 * blank-line removal `exec` applies to the command's output.
 */
module Virtualmin {
  import opened Base
  import opened Strings

  // ---------------------------------------------------------------------------------------------
  // getDomainInfo: the parse loop
  // ---------------------------------------------------------------------------------------------

  /** The fields of one domain, as a JavaScript object of strings. */
  type Section = seq<(String, String)>

  /** The loop's variables: `result`, `neskey`, `nesval`, and whether it has hit `break`. */
  datatype Parse = Parse(result: seq<(String, Section)>, neskey: String, nesval: Section, stopped: bool)

  const Start := Parse([], "", [], false)

  /** A line (already `trimEnd`-ed) the loop treats as a field: at least four long, indented. */
  predicate IsFieldLine(line: String)
  {
    |line| >= 4 && line[0] == ' '
  }

  /**
   * `line.trimStart().split(':', 2)` kept when it has two parts: the text before the first
   * colon, and the text between the first and the second colon without leading whitespace.
   */
  function FieldOf(line: String): Option<(String, String)>
  {
    var pair := Split(TrimStart(line), ':');
    if |pair| >= 2 then Some((pair[0], TrimStart(pair[1]))) else None
  }

  /** One turn of the loop over a raw line; nothing changes once it has stopped. */
  function Step(st: Parse, raw: String): Parse
  {
    if st.stopped then st
    else
      var line := TrimEnd(raw);
      if IsFieldLine(line) then
        match FieldOf(line)
        case Some(kv) => st.(nesval := Put(st.nesval, kv.0, kv.1))
        case None => st
      else if |line| >= 1 then
        if st.neskey != "" then Parse(Put(st.result, st.neskey, st.nesval), line, [], false)
        else st.(neskey := line)
      else st.(nesval := Put(st.nesval, st.neskey, line), stopped := true)
  }

  /** The loop run over `lines`, from left to right. */
  function Run(lines: seq<String>): Parse
  {
    if |lines| == 0 then Start else Step(Run(lines[..|lines| - 1]), lines[|lines| - 1])
  }

  /** Once the loop has stopped, later lines change nothing. */
  lemma {:induction false} RunStopped(lines: seq<String>, k: nat)
    requires k <= |lines| && Run(lines[..k]).stopped
    ensures Run(lines) == Run(lines[..k])
    decreases |lines| - k
  {
    if k < |lines| {
      assert lines[..k + 1][..k] == lines[..k];
      RunStopped(lines, k + 1);
    } else {
      assert lines[..k] == lines;
    }
  }

  /** The loop of `getDomainInfo` over the lines of the output; `break` on the first blank line. */
  method ParseSections(data: seq<String>) returns (result: seq<(String, Section)>)
    ensures result == Run(data).result
  {
    result := [];
    var neskey: String := "";
    var nesval: Section := [];
    var i := 0;
    while i < |data|
      invariant 0 <= i <= |data|
      invariant Run(data[..i]) == Parse(result, neskey, nesval, false)
    {
      assert data[..i + 1][..i] == data[..i];
      var line := TrimEnd(data[i]);
      if |line| >= 4 && line[0] == ' ' {
        var pair := Split(TrimStart(line), ':');
        if |pair| >= 2 {
          nesval := Put(nesval, pair[0], TrimStart(pair[1]));
        }
      } else if |line| >= 1 {
        if neskey != "" {
          result := Put(result, neskey, nesval);
          nesval := [];
        }
        neskey := line;
      } else {
        nesval := Put(nesval, neskey, line);
        RunStopped(data, i + 1);
        return;
      }
      i := i + 1;
    }
    assert data[..i] == data;
  }

  /** What `getDomainInfo` resolves to: `null`, the whole object, or one domain's entry. */
  datatype Lookup = Null | All(sections: seq<(String, Section)>) | One(section: Option<Section>)

  /**
   * `getDomainInfo(domain)` given the exit code and the output of `list-domains`: exit code 255
   * gives `null`; a non-empty domain selects its section (`undefined` when absent).
   */
  method GetDomainInfo(domain: String, code: int, stdout: String) returns (r: Lookup)
    ensures code == 255 ==> r == Null
    ensures code != 255 && domain != "" ==> r == One(Get(Run(Split(stdout, '\n')).result, domain))
    ensures code != 255 && domain == "" ==> r == All(Run(Split(stdout, '\n')).result)
  {
    if code == 255 {
      return Null;
    }
    var result := ParseSections(Split(stdout, '\n'));
    if domain != "" {
      r := One(Get(result, domain));
    } else {
      r := All(result);
    }
  }

  // ---------------------------------------------------------------------------------------------
  // What the loop makes of a listing
  // ---------------------------------------------------------------------------------------------

  /** A domain in the listing: its heading line and its indented field lines. */
  datatype Block = Block(heading: String, body: seq<String>)

  predicate WellFormed(b: Block)
  {
    var h := TrimEnd(b.heading);
    |h| >= 1 && !IsFieldLine(h) && forall i :: 0 <= i < |b.body| ==> IsFieldLine(TrimEnd(b.body[i]))
  }

  /** The lines of a listing. */
  function Lines(blocks: seq<Block>): seq<String>
  {
    if |blocks| == 0 then [] else Lines(blocks[..|blocks| - 1]) + [blocks[|blocks| - 1].heading] + blocks[|blocks| - 1].body
  }

  /** The fields of `body` assigned onto `base`, in order; lines without ':' add nothing. */
  function FieldsOnto(base: Section, body: seq<String>): Section
  {
    if |body| == 0 then base
    else
      var before := FieldsOnto(base, body[..|body| - 1]);
      match FieldOf(TrimEnd(body[|body| - 1]))
      case Some(kv) => Put(before, kv.0, kv.1)
      case None => before
  }

  /** The sections stored for `blocks`, each under its heading, later headings overwriting. */
  function Stored(blocks: seq<Block>): seq<(String, Section)>
  {
    if |blocks| == 0 then []
    else
      var b := blocks[|blocks| - 1];
      Put(Stored(blocks[..|blocks| - 1]), TrimEnd(b.heading), FieldsOnto([], b.body))
  }

  /** Field lines only add fields to the current section. */
  lemma {:induction false} RunFields(pre: seq<String>, body: seq<String>)
    requires !Run(pre).stopped
    requires forall i :: 0 <= i < |body| ==> IsFieldLine(TrimEnd(body[i]))
    ensures Run(pre + body) == Run(pre).(nesval := FieldsOnto(Run(pre).nesval, body))
  {
    if |body| == 0 {
      assert pre + body == pre;
    } else {
      var init := body[..|body| - 1];
      RunFields(pre, init);
      assert (pre + body)[..|pre + body| - 1] == pre + init;
    }
  }

  /**
   * The loop over a listing of well-formed domains: every domain but the last is stored, and
   * the last one is still pending, with its fields gathered but not stored.
   */
  lemma {:induction false} RunBlocks(blocks: seq<Block>)
    requires |blocks| > 0 && forall i :: 0 <= i < |blocks| ==> WellFormed(blocks[i])
    ensures var last := blocks[|blocks| - 1];
      Run(Lines(blocks)) == Parse(Stored(blocks[..|blocks| - 1]), TrimEnd(last.heading), FieldsOnto([], last.body), false)
  {
    var n := |blocks|;
    var last := blocks[n - 1];
    var pre := Lines(blocks[..n - 1]);
    if n > 1 {
      RunBlocks(blocks[..n - 1]);
      assert blocks[..n - 1][..n - 2] == blocks[..n - 2];
    } else {
      assert pre == [];
    }
    assert (pre + [last.heading])[..|pre|] == pre;
    RunFields(pre + [last.heading], last.body);
  }

  /**
   * A listing ended by a blank line: the first blank line stops the loop, so what follows it
   * is ignored, and the last domain before it is never stored, since a section is stored only
   * when the next heading starts.
   */
  lemma ListingResult(blocks: seq<Block>, blank: String, rest: seq<String>)
    requires |blocks| > 0 && forall i :: 0 <= i < |blocks| ==> WellFormed(blocks[i])
    requires TrimEnd(blank) == ""
    ensures Run(Lines(blocks) + [blank] + rest).result == Stored(blocks[..|blocks| - 1])
  {
    var lines := Lines(blocks) + [blank] + rest;
    var k := |Lines(blocks)| + 1;
    RunBlocks(blocks);
    assert lines[..k] == Lines(blocks) + [blank];
    assert lines[..k][..k - 1] == Lines(blocks);
    RunStopped(lines, k);
  }

  /** The last domain's heading is a key of the result only when an earlier domain shares it. */
  lemma {:induction false} StoredKeys(blocks: seq<Block>, key: String)
    ensures Get(Stored(blocks), key).Some? <==> exists i :: 0 <= i < |blocks| && TrimEnd(blocks[i].heading) == key
  {
    if |blocks| > 0 {
      var init := blocks[..|blocks| - 1];
      var b := blocks[|blocks| - 1];
      StoredKeys(init, key);
      GetPut(Stored(init), TrimEnd(b.heading), FieldsOnto([], b.body), key);
      if exists i :: 0 <= i < |init| && TrimEnd(init[i].heading) == key {
        var i :| 0 <= i < |init| && TrimEnd(init[i].heading) == key;
        assert blocks[i] == init[i];
      }
      if exists i :: 0 <= i < |blocks| && TrimEnd(blocks[i].heading) == key {
        var i :| 0 <= i < |blocks| && TrimEnd(blocks[i].heading) == key;
        if i < |blocks| - 1 {
          assert init[i] == blocks[i];
        }
      }
    }
  }

  /** Looking up a domain that is listed once, not last, finds its fields. */
  lemma {:induction false} StoredLookup(blocks: seq<Block>, j: nat)
    requires j < |blocks|
    requires forall i :: 0 <= i < |blocks| && i != j ==> TrimEnd(blocks[i].heading) != TrimEnd(blocks[j].heading)
    ensures Get(Stored(blocks), TrimEnd(blocks[j].heading)) == Some(FieldsOnto([], blocks[j].body))
  {
    var init := blocks[..|blocks| - 1];
    var b := blocks[|blocks| - 1];
    var key := TrimEnd(blocks[j].heading);
    GetPut(Stored(init), TrimEnd(b.heading), FieldsOnto([], b.body), key);
    if j < |blocks| - 1 {
      forall i | 0 <= i < |init| && i != j
        ensures TrimEnd(init[i].heading) != TrimEnd(init[j].heading)
      {
        assert init[i] == blocks[i];
      }
      StoredLookup(init, j);
    }
  }

  // ---------------------------------------------------------------------------------------------
  // execFormatted: the argument vector
  // ---------------------------------------------------------------------------------------------

  /** An option value: a boolean, a string, an integer, or `null`/`undefined`. */
  datatype Value = Bool(b: bool) | Str(s: String) | Num(n: int) | Nothing

  /** An option object, its entries in insertion order. */
  type Object = seq<(String, Value)>

  /** JavaScript truthiness of an option value. */
  predicate Truthy(v: Value)
  {
    match v
    case Bool(b) => b
    case Str(s) => s != ""
    case Num(n) => n != 0
    case Nothing => false
  }

  /** The string a value becomes when it is passed on. */
  function Text(v: Value): String
  {
    match v
    case Bool(b) => if b then "true" else "false"
    case Str(s) => s
    case Num(n) => IntToString(n)
    case Nothing => "null"
  }

  /** The entries of the option objects, in argument order; `None` stands for a non-object argument. */
  function Flatten(opts: seq<Option<Object>>): Object
  {
    if |opts| == 0 then []
    else
      var rest := Flatten(opts[..|opts| - 1]);
      match opts[|opts| - 1]
      case Some(o) => rest + o
      case None => rest
  }

  /** `Object.assign({}, ...opts.filter(x => x && typeof x === 'object'))`. */
  function Merged(opts: seq<Option<Object>>): Object
  {
    Collect(Flatten(opts))
  }

  /** What one entry adds to the argument vector. */
  function Emit(e: (String, Value), esc: String -> String): seq<String>
  {
    if !Truthy(e.1) then []
    else if e.1.Bool? then [esc("--" + e.0)]
    else [esc("--" + e.0), esc(Text(e.1))]
  }

  /** What the entries add to the argument vector, in order. */
  function Flags(es: Object, esc: String -> String): seq<String>
  {
    if |es| == 0 then [] else Flags(es[..|es| - 1], esc) + Emit(es[|es| - 1], esc)
  }

  /**
   * `execFormatted(program, ...opts)`: the argument vector handed to `exec`, with `escapeShell`
   * as `esc`; the `forEach` over the merged object's entries, in `Object.entries` order.
   */
  method ExecFormatted(program: String, opts: seq<Option<Object>>, esc: String -> String) returns (p: seq<String>)
    ensures |p| >= 1 && p[0] == program
    ensures p[1..] == Flags(ObjectOrder(Merged(opts)), esc)
  {
    p := EmitEntries(program, ObjectOrder(Merged(opts)), esc);
  }

  /** The `forEach` over the entries: the program name, then what each entry adds. */
  method EmitEntries(program: String, entries: Object, esc: String -> String) returns (p: seq<String>)
    ensures |p| >= 1 && p[0] == program
    ensures p[1..] == Flags(entries, esc)
  {
    p := [program];
    for i := 0 to |entries|
      invariant p == [program] + Flags(entries[..i], esc)
    {
      FlagsNext(entries, i, esc);
      ghost var before := p;
      var (k, v) := entries[i];
      if Truthy(v) {
        k := "--" + k;
        if v.Bool? {
          p := p + [esc(k)];
        } else {
          p := p + [esc(k), esc(Text(v))];
        }
      }
      assert p == before + Emit(entries[i], esc);
    }
    assert entries[..|entries|] == entries;
    assert p[1..] == Flags(entries, esc);
  }

  lemma FlagsNext(es: Object, i: nat, esc: String -> String)
    requires i < |es|
    ensures Flags(es[..i + 1], esc) == Flags(es[..i], esc) + Emit(es[i], esc)
  {
    assert es[..i + 1][..i] == es[..i];
  }

  lemma {:induction false} FlagsAppend(a: Object, b: Object, esc: String -> String)
    ensures Flags(a + b, esc) == Flags(a, esc) + Flags(b, esc)
  {
    if |b| == 0 {
      assert a + b == a;
    } else {
      FlagsAppend(a, b[..|b| - 1], esc);
      assert (a + b)[..|a + b| - 1] == a + b[..|b| - 1];
    }
  }

  /** Falsy values add nothing: the vector is that of the truthy entries alone. */
  lemma {:induction false} FalsyIgnored(es: Object, esc: String -> String)
    ensures Flags(es, esc) == Flags(Filter(es, (e: (String, Value)) => Truthy(e.1)), esc)
  {
    if |es| > 0 {
      var truthy := (e: (String, Value)) => Truthy(e.1);
      FalsyIgnored(es[1..], esc);
      assert es == [es[0]] + es[1..];
      FlagsAppend([es[0]], es[1..], esc);
      assert Flags([es[0]], esc) == Emit(es[0], esc) by {
        assert [es[0]][..0] == [];
      }
      if truthy(es[0]) {
        FlagsAppend([es[0]], Filter(es[1..], truthy), esc);
      }
    }
  }

  /** The value of the last entry for key `k`. */
  function LastOf(es: Object, k: String): Option<Value>
  {
    if |es| == 0 then None
    else if es[|es| - 1].0 == k then Some(es[|es| - 1].1)
    else LastOf(es[..|es| - 1], k)
  }

  /** Merging objects left to right: the later objects' keys win. */
  lemma {:induction false} MergedLastWins(opts: seq<Option<Object>>, k: String)
    ensures Get(Merged(opts), k) == LastOf(Flatten(opts), k)
  {
    CollectLast(Flatten(opts), k);
  }

  lemma {:induction false} CollectLast(es: Object, k: String)
    ensures Get(Collect(es), k) == LastOf(es, k)
  {
    if |es| > 0 {
      var last := es[|es| - 1];
      CollectLast(es[..|es| - 1], k);
      GetPut(Collect(es[..|es| - 1]), last.0, last.1, k);
    }
  }

  /** The entries of a later object come after those of earlier ones. */
  lemma {:induction false} FlattenAppend(opts: seq<Option<Object>>, o: Object)
    ensures Flatten(opts + [Some(o)]) == Flatten(opts) + o
  {
    assert (opts + [Some(o)])[..|opts|] == opts;
  }

  /**
   * A truthy entry of the merged object gives `--key` in the vector, followed by its value
   * unless it is `true`.
   */
  lemma EntryEmitted(es: Object, j: nat, esc: String -> String)
    requires j < |es| && Truthy(es[j].1)
    ensures var f := Flags(es, esc);
      exists i :: 0 <= i < |f| && f[i] == esc("--" + es[j].0)
        && (!es[j].1.Bool? ==> i + 1 < |f| && f[i + 1] == esc(Text(es[j].1)))
  {
    var f := Flags(es, esc);
    var i := |Flags(es[..j], esc)|;
    assert es[..j + 1][..j] == es[..j];
    assert es == es[..j + 1] + es[j + 1..];
    FlagsAppend(es[..j + 1], es[j + 1..], esc);
    var e := Emit(es[j], esc);
    assert Flags(es[..j + 1], esc) == Flags(es[..j], esc) + e;
    assert f == Flags(es[..j], esc) + e + Flags(es[j + 1..], esc);
    assert f[i] == e[0] == esc("--" + es[j].0);
    if !es[j].1.Bool? {
      assert f[i + 1] == e[1];
    }
  }

  /** With no truthy option value the vector is the program name alone. */
  lemma {:induction false} AllFalsy(es: Object, esc: String -> String)
    requires forall i :: 0 <= i < |es| ==> !Truthy(es[i].1)
    ensures Flags(es, esc) == []
  {
    if |es| > 0 {
      AllFalsy(es[..|es| - 1], esc);
    }
  }

  // ---------------------------------------------------------------------------------------------
  // exec: `replace(/^\s*\n/gm, '')`
  // ---------------------------------------------------------------------------------------------

  /** The characters after which `^` matches in multiline mode. */
  predicate IsLineTerminator(c: char)
  {
    c == '\n' || c == '\r' || c == '\U{2028}' || c == '\U{2029}'
  }

  /**
   * The length of the match of `\s*\n` at the start of `s`, 0 when there is none: the greedy
   * `\s*` takes the whole run of whitespace, then backs off to its last line feed.
   */
  function BlankRun(s: String): (r: nat)
    ensures r <= |s|
    ensures r > 0 ==> s[r - 1] == '\n' && AllWhitespace(s[..r])
  {
    if |s| == 0 || !IsWhitespace(s[0]) then 0
    else
      var r := BlankRun(s[1..]);
      if r > 0 then r + 1 else if s[0] == '\n' then 1 else 0
  }

  /**
   * The global replacement over `s`, where `bol` says whether `^` matches at its start: a match
   * is removed and the scan goes on after it; elsewhere one character is kept.
   */
  function StripFrom(s: String, bol: bool): String
    decreases |s|
  {
    if |s| == 0 then ""
    else if bol && BlankRun(s) > 0 then StripFrom(s[BlankRun(s)..], true)
    else [s[0]] + StripFrom(s[1..], IsLineTerminator(s[0]))
  }

  /** `('' + s).replace(/^\s*\n/gm, '')`, applied to both stdout and stderr. */
  function StripBlankLines(s: String): String
  {
    StripFrom(s, true)
  }

  /** What `exec` resolves to: the exit code and both outputs with their blank lines removed. */
  datatype Output = Output(code: int, stdout: String, stderr: String)

  function Exec(raw: Output): (r: Output)
    ensures r.code == raw.code
  {
    Output(raw.code, StripBlankLines(raw.stdout), StripBlankLines(raw.stderr))
  }

  /** No line terminator other than a line feed. */
  predicate LfOnly(s: String)
  {
    forall i :: 0 <= i < |s| ==> s[i] == '\n' || !IsLineTerminator(s[i])
  }

  /** The lines of a text: every line that holds only whitespace is dropped with its line feed; the last piece stays. */
  function KeepLines(lines: seq<String>): String
    requires |lines| >= 1
  {
    if |lines| == 1 then lines[0]
    else (if AllWhitespace(lines[0]) then "" else lines[0] + "\n") + KeepLines(lines[1..])
  }

  lemma {:induction false} BlankRunWhite(w: String, t: String)
    requires AllWhitespace(w) && '\n' !in w
    ensures BlankRun(w + "\n" + t) == |w| + 1 + BlankRun(t)
  {
    if |w| > 0 {
      assert (w + "\n" + t)[1..] == w[1..] + "\n" + t;
      BlankRunWhite(w[1..], t);
    } else {
      assert (w + "\n" + t)[1..] == t;
    }
  }

  lemma {:induction false} BlankRunText(x: String, t: String)
    requires !AllWhitespace(x) && '\n' !in x
    ensures BlankRun(x + t) == 0
  {
    if IsWhitespace(x[0]) {
      assert (x + t)[1..] == x[1..] + t;
      BlankRunText(x[1..], t);
    }
  }

  /** Inside a line, characters are kept up to and including its line feed. */
  lemma {:induction false} MidLine(y: String, t: String)
    requires '\n' !in y && LfOnly(y)
    ensures StripFrom(y + "\n" + t, false) == y + "\n" + StripFrom(t, true)
  {
    if |y| > 0 {
      assert (y + "\n" + t)[1..] == y[1..] + "\n" + t;
      MidLine(y[1..], t);
    } else {
      assert (y + "\n" + t)[1..] == t;
    }
  }

  /** The last piece, which no line feed ends, is kept whole. */
  lemma {:induction false} LastLine(y: String, bol: bool)
    requires '\n' !in y && LfOnly(y)
    ensures StripFrom(y, bol) == y
  {
    if |y| > 0 {
      assert BlankRun(y) == 0 by {
        BlankRunNone(y);
      }
      LastLine(y[1..], false);
    }
  }

  lemma {:induction false} BlankRunNone(y: String)
    requires '\n' !in y
    ensures BlankRun(y) == 0
  {
    if |y| > 0 {
      BlankRunNone(y[1..]);
    }
  }

  /** A line of whitespace at the start of a line goes, with its line feed. */
  lemma BlankLine(w: String, t: String)
    requires AllWhitespace(w) && '\n' !in w
    ensures StripFrom(w + "\n" + t, true) == StripFrom(t, true)
  {
    var s := w + "\n" + t;
    BlankRunWhite(w, t);
    assert s[BlankRun(s)..] == t[BlankRun(t)..];
  }

  /** A line holding something else is kept, with its line feed. */
  lemma TextLine(x: String, t: String)
    requires !AllWhitespace(x) && '\n' !in x && LfOnly(x)
    ensures StripFrom(x + "\n" + t, true) == x + "\n" + StripFrom(t, true)
  {
    BlankRunText(x, "\n" + t);
    assert x + "\n" + t == x + ("\n" + t);
    assert (x + "\n" + t)[1..] == x[1..] + "\n" + t;
    MidLine(x[1..], t);
  }

  lemma {:induction false} StripJoin(lines: seq<String>)
    requires |lines| >= 1
    requires forall i :: 0 <= i < |lines| ==> '\n' !in lines[i] && LfOnly(lines[i])
    ensures StripFrom(Join(lines, "\n"), true) == KeepLines(lines)
  {
    if |lines| == 1 {
      LastLine(lines[0], true);
    } else {
      StripJoin(lines[1..]);
      var t := Join(lines[1..], "\n");
      if AllWhitespace(lines[0]) {
        BlankLine(lines[0], t);
      } else {
        TextLine(lines[0], t);
      }
    }
  }

  /**
   * On text whose only line terminator is the line feed, the replacement drops exactly the
   * lines that hold nothing but whitespace, each with its line feed, and keeps every other
   * line and the unterminated last piece.
   */
  lemma StripLines(s: String)
    requires LfOnly(s)
    ensures StripBlankLines(s) == KeepLines(Split(s, '\n'))
  {
    var lines := Split(s, '\n');
    JoinSplit(s, '\n');
    forall i | 0 <= i < |lines|
      ensures '\n' !in lines[i] && LfOnly(lines[i])
    {
      JoinPieces(lines, i);
      forall j | 0 <= j < |lines[i]|
        ensures lines[i][j] == '\n' || !IsLineTerminator(lines[i][j])
      {
        assert lines[i][j] in s;
      }
    }
    StripJoin(lines);
  }

  /** Every character of a piece is a character of the joined string. */
  lemma {:induction false} JoinPieces(parts: seq<String>, i: nat)
    requires i < |parts|
    ensures forall c :: c in parts[i] ==> c in Join(parts, "\n")
  {
    if i > 0 {
      JoinPieces(parts[1..], i - 1);
    }
  }

  /**
   * A carriage return also lets `^` match, so on CRLF text the line feed after every carriage
   * return is removed as a blank line.
   */
  lemma CrlfLosesLineFeed()
    ensures StripBlankLines("a\r\nb") == "a\rb"
  {
    var s := "a\r\nb";
    assert BlankRun(s) == 0;
    assert s[1..] == "\r\nb";
    assert s[1..][1..] == "\nb";
    assert BlankRun("\nb") == 1 by {
      assert "\nb"[1..] == "b";
    }
    assert "\nb"[1..] == "b";
    assert StripFrom("b", true) == "b" by {
      assert "b"[1..] == "";
    }
  }
}
