/**
 * `src/executor/runnercode.js`: the version argument `runConfigCodeFeatures` hands to each
 * language installer, and `handleSshOutput`, which filters the chunks an interactive ssh shell
 * prints before they reach the deployment log.
 */
module RunnerCode {
  import opened Base
  import opened Strings

  // ---------------------------------------------------------------------------------------------
  // runConfigCodeFeatures: the returned argument
  // ---------------------------------------------------------------------------------------------

  /** The feature keys that set `arg`. */
  predicate SetsArg(key: String)
  {
    key in {"node", "deno", "go", "golang", "rust", "rustlang", "bun", "zig", "dotnet", "jdk", "java"}
  }

  /**
   * What `runConfigCodeFeatures(key, value, …)` returns: the installer argument for a language
   * engine, `value` itself for `off`, `undefined` for keys that set no argument. For Java,
   * `hasJavaBinary` says whether `getJavaVersion(value)` found a download; without one it throws.
   */
  function EngineArg(key: String, value: String, hasJavaBinary: bool): (r: Result<Option<String>>)
    ensures r.Ok? && r.value.None? <==> !SetsArg(key)
    ensures r.Err? <==> key in {"jdk", "java"} && value != "off" && !hasJavaBinary
  {
    if key == "node" then
      Ok(Some(if value == "off" then value
        else if value == "latest" || value == "current" then "node"
        else if value == "" || value == "stable" || value == "lts" then "lts/*"
        else value))
    else if key in {"deno", "go", "golang"} then
      Ok(Some(if value == "off" then value
        else if value == "latest" || value == "current" then ""
        else if value == "" || value == "lts" then "@stable"
        else "@" + value))
    else if key in {"rust", "rustlang"} then
      Ok(Some(if value == "off" then value
        else if value in {"", "current", "latest", "lts"} then "stable"
        else value))
    else if key in {"bun", "zig"} then
      Ok(Some(if value == "off" then value
        else if value in {"latest", "current", "", "lts"} then ""
        else "@" + value))
    else if key == "dotnet" then
      Ok(Some(if value == "off" then value
        else if value == "latest" || value == "current" then "--version latest"
        else if value == "" || value == "lts" || value == "stable" then "--channel LTS"
        else if value == "sts" then "--channel STS"
        else "--channel " + value))
    else if key in {"jdk", "java"} then
      if value != "off" && !hasJavaBinary then Err("No Java with version " + value + " is available to install")
      else Ok(Some(value))
    else Ok(None)
  }

  /** The aliases choose the same argument. */
  lemma EngineAliases(value: String, hasJavaBinary: bool)
    ensures EngineArg("go", value, hasJavaBinary) == EngineArg("golang", value, hasJavaBinary)
    ensures EngineArg("rust", value, hasJavaBinary) == EngineArg("rustlang", value, hasJavaBinary)
    ensures EngineArg("jdk", value, hasJavaBinary) == EngineArg("java", value, hasJavaBinary)
  {
  }

  /** `off` comes back verbatim from every key that sets an argument. */
  lemma OffVerbatim(key: String, hasJavaBinary: bool)
    requires SetsArg(key)
    ensures EngineArg(key, "off", hasJavaBinary) == Ok(Some("off"))
  {
  }

  /**
   * The webinstall suffix: empty for the newest release, `@stable` for deno and go's default, and
   * otherwise `@` followed by the requested version, so the version can be read back from it.
   */
  lemma WebiSuffix(key: String, value: String, hasJavaBinary: bool)
    requires key in {"deno", "go", "golang", "bun", "zig"} && value != "off"
    ensures var a := EngineArg(key, value, hasJavaBinary).value.value;
      a == "" || (|a| > 0 && a[0] == '@')
    ensures var a := EngineArg(key, value, hasJavaBinary).value.value;
      value !in {"", "latest", "current", "lts"} ==> a[1..] == value
  {
  }

  // ---------------------------------------------------------------------------------------------
  // handleSshOutput: cleaning a chunk
  // ---------------------------------------------------------------------------------------------

  predicate IsLineTerminator(c: char)
  {
    c == '\n' || c == '\r' || c == '\U{2028}' || c == '\U{2029}'
  }

  /** The length of the prefix of `t` that is a run of spaces and carriage returns ending in a carriage return. */
  function CrRun(t: String): (r: nat)
    ensures r <= |t|
    ensures r > 0 ==> t[r - 1] == '\r'
  {
    if |t| == 0 || !(t[0] == ' ' || t[0] == '\r') then 0
    else
      var r := CrRun(t[1..]);
      if r > 0 then r + 1 else if t[0] == '\r' then 1 else 0
  }

  /**
   * `s.replace(/\r[ \r]+\r/g, '')`: a carriage return followed by at least one space or carriage
   * return and then, greedily, the last carriage return of that run (the progress line yarn
   * redraws) is removed.
   */
  function DropRedraws(s: String): String
    decreases |s|
  {
    if |s| == 0 then ""
    else if s[0] == '\r' && CrRun(s[1..]) >= 2 then DropRedraws(s[1 + CrRun(s[1..])..])
    else [s[0]] + DropRedraws(s[1..])
  }

  /** The length of the prefix of `t` that `.` matches: no line terminator. */
  function LineRest(t: String): (r: nat)
    ensures r <= |t|
    ensures forall i :: 0 <= i < r ==> !IsLineTerminator(t[i])
    ensures r < |t| ==> IsLineTerminator(t[r])
  {
    if |t| == 0 || IsLineTerminator(t[0]) then 0 else LineRest(t[1..]) + 1
  }

  /**
   * `s.replace(/[\r\0].*$/gm, '')`: from a carriage return or a NUL character to the end of its
   * line is removed.
   */
  function DropFromCr(s: String): (r: String)
    ensures forall i :: 0 <= i < |r| ==> r[i] != '\r' && r[i] != '\0'
    decreases |s|
  {
    if |s| == 0 then ""
    else if s[0] == '\r' || s[0] == '\0' then DropFromCr(s[1 + LineRest(s[1..])..])
    else [s[0]] + DropFromCr(s[1..])
  }

  /** The cleaning `handleSshOutput` applies before anything else. */
  function Clean(chunk: String): (r: String)
    ensures forall i :: 0 <= i < |r| ==> r[i] != '\r' && r[i] != '\0'
  {
    DropFromCr(DropRedraws(chunk))
  }

  /** Text without carriage returns or NUL characters passes unchanged. */
  lemma {:induction false} CleanKeeps(s: String)
    requires forall i :: 0 <= i < |s| ==> s[i] != '\r' && s[i] != '\0'
    ensures Clean(s) == s
  {
    DropRedrawsKeeps(s);
    DropFromCrKeeps(s);
  }

  lemma {:induction false} DropRedrawsKeeps(s: String)
    requires forall i :: 0 <= i < |s| ==> s[i] != '\r'
    ensures DropRedraws(s) == s
  {
    if |s| > 0 {
      DropRedrawsKeeps(s[1..]);
    }
  }

  lemma {:induction false} DropFromCrKeeps(s: String)
    requires forall i :: 0 <= i < |s| ==> s[i] != '\r' && s[i] != '\0'
    ensures DropFromCr(s) == s
  {
    if |s| > 0 {
      DropFromCrKeeps(s[1..]);
    }
  }

  // ---------------------------------------------------------------------------------------------
  // handleSshOutput: skipping echoed lines
  // ---------------------------------------------------------------------------------------------

  /** `countOf(s, c)`: how many times `c` occurs in `s`. */
  function CountOf(s: String, c: char): nat
  {
    if |s| == 0 then 0 else CountOf(s[..|s| - 1], c) + (if s[|s| - 1] == c then 1 else 0)
  }

  lemma {:induction false} CountOfAppend(a: String, b: String, c: char)
    ensures CountOf(a + b, c) == CountOf(a, c) + CountOf(b, c)
  {
    if |b| > 0 {
      CountOfAppend(a, b[..|b| - 1], c);
      assert (a + b)[..|a + b| - 1] == a + b[..|b| - 1];
    } else {
      assert a + b == a;
    }
  }

  /** `nthIndexOf(s, c, n)`: the index of the `n`-th occurrence of `c`, counting from 1. */
  function NthIndexOf(s: String, c: char, n: nat): (i: nat)
    requires 1 <= n <= CountOf(s, c)
    ensures i < |s| && s[i] == c && CountOf(s[..i + 1], c) == n
    decreases |s|
  {
    CountOfAppend([s[0]], s[1..], c);
    assert [s[0]] + s[1..] == s;
    assert CountOf([s[0]], c) == if s[0] == c then 1 else 0 by {
      assert [s[0]][..0] == [];
    }
    if s[0] == c && n == 1 then
      assert s[..1] == [s[0]];
      0
    else
      var k := NthIndexOf(s[1..], c, if s[0] == c then n - 1 else n);
      assert s[..k + 2] == [s[0]] + s[1..][..k + 1];
      CountOfAppend([s[0]], s[1..][..k + 1], c);
      k + 1
  }

  /**
   * The lines still to skip: with `skip > 0`, a chunk with fewer line feeds is suppressed and
   * lowers the counter; otherwise the text through the `skip`-th line feed is dropped and the
   * counter is cleared.
   */
  function Skip(chunk: String, skip: int): (String, int)
  {
    if skip <= 0 then (chunk, skip)
    else
      var n := CountOf(chunk, '\n');
      if n >= skip then (chunk[NthIndexOf(chunk, '\n', skip) + 1..], 0)
      else ("", skip - n)
  }

  /** Writing the echo of one more piece extends the echo of the pieces before it. */
  lemma EchoStep(out: String, splits: seq<String>, i: nat, quote: String -> String)
    requires i < |splits|
    ensures var line := EchoLine(splits[i], i == |splits| - 1, quote);
            out + Echo(splits, i + 1, quote) == out + Echo(splits, i, quote) + line
            && (line == "" ==> Echo(splits, i + 1, quote) == Echo(splits, i, quote))
  {
    var line := EchoLine(splits[i], i == |splits| - 1, quote);
    assert out + (Echo(splits, i, quote) + line) == out + Echo(splits, i, quote) + line;
  }

  /** `chunk` is `dropped` followed by `rest`, and `dropped` is `n` whole lines. */
  predicate Dropped(chunk: String, dropped: String, rest: String, n: nat)
  {
    chunk == dropped + rest && CountOf(dropped, '\n') == n && |dropped| > 0 && dropped[|dropped| - 1] == '\n'
  }

  /**
   * What is dropped is exactly `skip` lines: a prefix holding `skip` line feeds and ending in
   * one; a suppressed chunk's line feeds are taken off the counter.
   */
  lemma SkipSpec(chunk: String, skip: int)
    requires skip > 0
    ensures CountOf(chunk, '\n') >= skip ==> Skip(chunk, skip).1 == 0
    ensures CountOf(chunk, '\n') >= skip ==>
      exists dropped :: Dropped(chunk, dropped, Skip(chunk, skip).0, skip)
    ensures CountOf(chunk, '\n') < skip ==>
      Skip(chunk, skip) == ("", skip - CountOf(chunk, '\n')) && Skip(chunk, skip).1 > 0
  {
    if CountOf(chunk, '\n') >= skip {
      var dropped := SkipDrops(chunk, skip);
    }
  }

  /** The text through the `skip`-th line feed is what a chunk with enough of them loses. */
  lemma SkipDrops(chunk: String, skip: nat) returns (dropped: String)
    requires 0 < skip <= CountOf(chunk, '\n')
    ensures Dropped(chunk, dropped, Skip(chunk, skip).0, skip)
  {
    var i := NthIndexOf(chunk, '\n', skip);
    dropped := chunk[..i + 1];
    assert chunk == dropped + chunk[i + 1..];
  }

  // ---------------------------------------------------------------------------------------------
  // handleSshOutput: the state it keeps
  // ---------------------------------------------------------------------------------------------

  /** The fields of `ctx` the handler updates, and everything the writer has been given. */
  datatype Ctx = Ctx(skipLineLen: int, lastChunkIncomplete: bool, sshPs1Header: String, output: String)

  /** One piece of the debug echo: `"$< " + JSON.stringify(el)` and a continuation mark, for a non-empty `el`. */
  function EchoLine(piece: String, isLast: bool, quote: String -> String): String
  {
    var el := piece + (if isLast then "" else "\n");
    if el == "" then "" else "$< " + quote(el) + (if isLast then "\n" else " +\n")
  }

  /** The echo of the first `k` pieces of the original chunk. */
  function Echo(splits: seq<String>, k: nat, quote: String -> String): String
    requires k <= |splits|
  {
    if k == 0 then "" else Echo(splits, k - 1, quote) + EchoLine(splits[k - 1], k - 1 == |splits| - 1, quote)
  }

  /** The debug echo: an open line is closed first, then each piece of the original chunk is quoted. */
  function DebugEcho(c: Ctx, original: String, quote: String -> String): Ctx
  {
    var splits := Split(original, '\n');
    var closed := if c.lastChunkIncomplete then c.output + "\n" else c.output;
    c.(output := closed + Echo(splits, |splits|, quote), lastChunkIncomplete := false)
  }

  /**
   * A prompt: a new or changed prompt is remembered and nothing is written; otherwise, with
   * `write`, the text before the prompt is written. An open line is then closed.
   */
  function Prompt(c: Ctx, write: bool, chunk: String): Ctx
  {
    var h := c.sshPs1Header;
    var c1 :=
      if h == "" || !EndsWith(chunk, h) then c.(sshPs1Header := chunk)
      else if write && |chunk| > |h| then
        var text := chunk[..|chunk| - |h|];
        c.(output := c.output + text, lastChunkIncomplete := !EndsWith(text, "\n"))
      else c;
    if write && c1.lastChunkIncomplete then c1.(output := c1.output + "\n", lastChunkIncomplete := false)
    else c1
  }

  /** Other output: written as it is, except that a lone line feed only closes an open line. */
  function Plain(c: Ctx, write: bool, chunk: String): Ctx
  {
    if write && chunk != "" then
      if chunk == "\n" then
        if c.lastChunkIncomplete then c.(output := c.output + "\n", lastChunkIncomplete := false) else c
      else c.(output := c.output + chunk, lastChunkIncomplete := !EndsWith(chunk, "\n"))
    else c
  }

  /**
   * `handleSshOutput(chunk, ctx)`, with `isPrompt` standing for the prompt pattern's match on the
   * original chunk and `quote` for `JSON.stringify`.
   */
  function Handle(c: Ctx, write: bool, debug: bool, chunk: String, isPrompt: bool, quote: String -> String): Ctx
  {
    var skipped := Skip(Clean(chunk), c.skipLineLen);
    var c1 := c.(skipLineLen := skipped.1);
    var c2 := if debug then DebugEcho(c1, chunk, quote) else c1;
    if isPrompt then Prompt(c2, write, skipped.0) else Plain(c2, write, skipped.0)
  }

  // ---------------------------------------------------------------------------------------------
  // What the handler keeps true
  // ---------------------------------------------------------------------------------------------

  /** The flag says exactly whether the writer's output stops in the middle of a line. */
  predicate LineFlag(c: Ctx)
  {
    c.lastChunkIncomplete <==> |c.output| > 0 && c.output[|c.output| - 1] != '\n'
  }

  lemma {:induction false} EchoEndsLine(splits: seq<String>, k: nat, quote: String -> String)
    requires k <= |splits|
    ensures var e := Echo(splits, k, quote); |e| == 0 || e[|e| - 1] == '\n'
  {
    if k > 0 {
      EchoEndsLine(splits, k - 1, quote);
    }
  }

  lemma EndsWithLast(s: String, t: String)
    requires |t| > 0
    ensures EndsWith(t, "\n") <==> (s + t)[|s + t| - 1] == '\n'
  {
  }

  lemma DebugKeeps(c: Ctx, original: String, quote: String -> String)
    requires LineFlag(c)
    ensures LineFlag(DebugEcho(c, original, quote))
  {
    var splits := Split(original, '\n');
    EchoEndsLine(splits, |splits|, quote);
  }

  lemma PromptKeeps(c: Ctx, write: bool, chunk: String)
    requires LineFlag(c)
    ensures LineFlag(Prompt(c, write, chunk))
  {
    var h := c.sshPs1Header;
    if !(h == "" || !EndsWith(chunk, h)) && write && |chunk| > |h| {
      EndsWithLast(c.output, chunk[..|chunk| - |h|]);
    }
  }

  lemma PlainKeeps(c: Ctx, write: bool, chunk: String)
    requires LineFlag(c)
    ensures LineFlag(Plain(c, write, chunk))
  {
    if write && chunk != "" && chunk != "\n" {
      EndsWithLast(c.output, chunk);
    }
  }

  /**
   * Every chunk keeps the flag true to the output, whether or not it writes, echoes or is a
   * prompt, and keeps the skip counter from going negative.
   */
  lemma HandleKeeps(c: Ctx, write: bool, debug: bool, chunk: String, isPrompt: bool, quote: String -> String)
    requires LineFlag(c) && c.skipLineLen >= 0
    ensures var n := Handle(c, write, debug, chunk, isPrompt, quote);
      LineFlag(n) && n.skipLineLen >= 0
  {
    var skipped := Skip(Clean(chunk), c.skipLineLen);
    var c1 := c.(skipLineLen := skipped.1);
    if debug {
      DebugKeeps(c1, chunk, quote);
    }
    var c2 := if debug then DebugEcho(c1, chunk, quote) else c1;
    if isPrompt {
      PromptKeeps(c2, write, skipped.0);
    } else {
      PlainKeeps(c2, write, skipped.0);
    }
  }

  /** The writer only ever appends. */
  lemma HandleAppends(c: Ctx, write: bool, debug: bool, chunk: String, isPrompt: bool, quote: String -> String)
    ensures var n := Handle(c, write, debug, chunk, isPrompt, quote);
      |c.output| <= |n.output| && n.output[..|c.output|] == c.output
  {
  }

  /** With neither `write` nor `debug`, nothing is written. */
  lemma Silent(c: Ctx, chunk: String, isPrompt: bool, quote: String -> String)
    ensures Handle(c, false, false, chunk, isPrompt, quote).output == c.output
    ensures Handle(c, false, false, chunk, isPrompt, quote).lastChunkIncomplete == c.lastChunkIncomplete
  {
  }

  /** When a prompt arrives and output is on, the log ends on a complete line before the next command. */
  lemma PromptClosesLine(c: Ctx, debug: bool, chunk: String, quote: String -> String)
    requires LineFlag(c) && c.skipLineLen >= 0
    ensures var n := Handle(c, true, debug, chunk, true, quote);
      |n.output| == 0 || n.output[|n.output| - 1] == '\n'
  {
    HandleKeeps(c, true, debug, chunk, true, quote);
  }

  /**
   * Ordinary output with nothing left to skip and no echo is passed on cleaned; a lone line feed
   * is written only to close an open line.
   */
  lemma PlainWritten(c: Ctx, chunk: String, quote: String -> String)
    requires c.skipLineLen == 0
    ensures var n := Handle(c, true, false, chunk, false, quote);
      n.output == c.output + (if Clean(chunk) == "\n" then (if c.lastChunkIncomplete then "\n" else "") else Clean(chunk))
  {
  }

  /** A prompt that repeats the remembered one, with output on, writes just the text before it. */
  lemma PromptWritesBefore(c: Ctx, text: String, quote: String -> String)
    requires c.skipLineLen == 0 && c.sshPs1Header != "" && LineFlag(c)
    requires forall i :: 0 <= i < |text| ==> text[i] != '\r' && text[i] != '\0'
    requires forall i :: 0 <= i < |c.sshPs1Header| ==> c.sshPs1Header[i] != '\r' && c.sshPs1Header[i] != '\0'
    requires |text| > 0 && text[|text| - 1] == '\n'
    ensures Handle(c, true, false, text + c.sshPs1Header, true, quote).output == c.output + text
  {
    var h := c.sshPs1Header;
    var chunk := text + h;
    assert forall i :: 0 <= i < |chunk| ==> chunk[i] != '\r' && chunk[i] != '\0';
    CleanKeeps(chunk);
    assert chunk[|chunk| - |h|..] == h;
    assert chunk[..|chunk| - |h|] == text;
  }

  // ---------------------------------------------------------------------------------------------
  // handleSshOutput, in place on ctx
  // ---------------------------------------------------------------------------------------------

  /** The `ctx` of a runner session, with the writer's output accumulated in `output`. */
  class SshSession {
    var skipLineLen: int
    var lastChunkIncomplete: bool
    var sshPs1Header: String
    var output: String
    const write: bool
    const debug: bool

    function State(): Ctx
      reads this
    {
      Ctx(skipLineLen, lastChunkIncomplete, sshPs1Header, output)
    }

    constructor(skip: nat, write: bool, debug: bool)
      ensures State() == Ctx(skip, false, "", "")
      ensures this.write == write && this.debug == debug
    {
      skipLineLen := skip;
      lastChunkIncomplete := false;
      sshPs1Header := "";
      output := "";
      this.write := write;
      this.debug := debug;
    }

    method WriteOut(s: String)
      modifies this
      ensures output == old(output) + s
      ensures skipLineLen == old(skipLineLen) && lastChunkIncomplete == old(lastChunkIncomplete)
      ensures sshPs1Header == old(sshPs1Header)
    {
      output := output + s;
    }

    /** The skip step: the chunk left after the lines still to skip. */
    method SkipLines(chunk: String) returns (text: String)
      modifies this
      ensures (text, skipLineLen) == Skip(chunk, old(skipLineLen))
      ensures lastChunkIncomplete == old(lastChunkIncomplete) && sshPs1Header == old(sshPs1Header)
      ensures output == old(output)
    {
      text := chunk;
      if skipLineLen > 0 {
        var chunkLineLen := CountOf(text, '\n');
        if chunkLineLen >= skipLineLen {
          var trimTo := NthIndexOf(text, '\n', skipLineLen);
          text := text[trimTo + 1..];
          skipLineLen := 0;
        } else {
          text := "";
          skipLineLen := skipLineLen - chunkLineLen;
        }
      }
    }

    /** The debug echo of the original chunk. */
    method EchoChunk(original: String, quote: String -> String)
      modifies this
      ensures State() == DebugEcho(old(State()), original, quote)
    {
      if lastChunkIncomplete {
        WriteOut("\n");
        lastChunkIncomplete := false;
      }
      EchoPieces(Split(original, '\n'), quote);
    }

    /** The loop over the pieces of the original chunk, writing each non-empty one quoted. */
    method EchoPieces(splits: seq<String>, quote: String -> String)
      modifies this
      ensures output == old(output) + Echo(splits, |splits|, quote)
      ensures skipLineLen == old(skipLineLen) && sshPs1Header == old(sshPs1Header)
      ensures lastChunkIncomplete == old(lastChunkIncomplete)
    {
      for i := 0 to |splits|
        invariant output == old(output) + Echo(splits, i, quote)
        invariant skipLineLen == old(skipLineLen) && sshPs1Header == old(sshPs1Header)
        invariant lastChunkIncomplete == old(lastChunkIncomplete)
      {
        var line := EchoLine(splits[i], i == |splits| - 1, quote);
        EchoStep(old(output), splits, i, quote);
        if line != "" {
          WriteOut(line);
        }
      }
    }

    method PromptChunk(chunk: String)
      modifies this
      ensures State() == Prompt(old(State()), write, chunk)
    {
      if sshPs1Header == "" || !EndsWith(chunk, sshPs1Header) {
        sshPs1Header := chunk;
      } else if write && |chunk| > |sshPs1Header| {
        var text := chunk[..|chunk| - |sshPs1Header|];
        WriteOut(text);
        lastChunkIncomplete := !EndsWith(text, "\n");
      }
      if write && lastChunkIncomplete {
        WriteOut("\n");
        lastChunkIncomplete := false;
      }
    }

    method PlainChunk(chunk: String)
      modifies this
      ensures State() == Plain(old(State()), write, chunk)
    {
      if write && chunk != "" {
        if chunk == "\n" {
          if lastChunkIncomplete {
            WriteOut("\n");
            lastChunkIncomplete := false;
          }
        } else {
          WriteOut(chunk);
          lastChunkIncomplete := !EndsWith(chunk, "\n");
        }
      }
    }

    /** `handleSshOutput`: returns the prompt pattern's match on the original chunk. */
    method HandleSshOutput(chunk: String, isPrompt: bool, quote: String -> String) returns (matched: bool)
      modifies this
      ensures matched == isPrompt
      ensures State() == Handle(old(State()), write, debug, chunk, isPrompt, quote)
    {
      var text := SkipLines(Clean(chunk));
      if debug {
        EchoChunk(chunk, quote);
      }
      if isPrompt {
        PromptChunk(text);
      } else {
        PlainChunk(text);
      }
      matched := isPrompt;
    }
  }
}
