/**
 * Node's `path.join` and `path.normalize` on POSIX paths, used where the bridge builds a path
 * under a user's home directory.
 */
module Paths {
  import opened Base
  import opened Strings

  /** One segment of `normalizeString`: empty and `.` segments vanish, `..` climbs when it can. */
  function PushSegment(stack: seq<String>, seg: String, absolute: bool): seq<String>
  {
    if seg == "" || seg == "." then stack
    else if seg == ".." then
      if |stack| > 0 && stack[|stack| - 1] != ".." then stack[..|stack| - 1]
      else if absolute then stack
      else stack + [".."]
    else stack + [seg]
  }

  /** The segments left after reading `segs` from left to right. */
  function Resolve(segs: seq<String>, absolute: bool): seq<String>
  {
    if |segs| == 0 then []
    else PushSegment(Resolve(segs[..|segs| - 1], absolute), segs[|segs| - 1], absolute)
  }

  /** `path.normalize(p)`. */
  function Normalize(p: String): String
  {
    if |p| == 0 then "."
    else
      var absolute := p[0] == '/';
      var trailing := p[|p| - 1] == '/';
      var body := Join(Resolve(Split(p, '/'), absolute), "/");
      if |body| == 0 then (if absolute then "/" else if trailing then "./" else ".")
      else
        var b := if trailing then body + "/" else body;
        if absolute then "/" + b else b
  }

  /** `path.join(a, b)`: the non-empty arguments joined by '/', then normalised. */
  function PathJoin(a: String, b: String): String
  {
    var joined := if |a| == 0 then b else if |b| == 0 then a else a + "/" + b;
    if |joined| == 0 then "." else Normalize(joined)
  }

  /** A segment normalisation keeps. */
  predicate PlainSegment(seg: String)
  {
    seg != "" && seg != "." && seg != ".."
  }

  /** A relative path with no empty, `.` or `..` segment: no leading, trailing or doubled '/'. */
  predicate CleanPath(s: String)
  {
    forall i :: 0 <= i < |Split(s, '/')| ==> PlainSegment(Split(s, '/')[i])
  }

  lemma {:induction false} ResolvePlain(segs: seq<String>, absolute: bool)
    requires forall i :: 0 <= i < |segs| ==> PlainSegment(segs[i])
    ensures Resolve(segs, absolute) == segs
  {
    if |segs| > 0 {
      ResolvePlain(segs[..|segs| - 1], absolute);
      assert segs[..|segs| - 1] + [segs[|segs| - 1]] == segs;
    }
  }

  /** An absolute clean path is already normal. */
  lemma NormalizeClean(s: String)
    requires CleanPath(s)
    ensures Normalize("/" + s) == "/" + s
  {
    var p := "/" + s;
    assert p[1..] == s;
    assert Split(p, '/') == [""] + Split(s, '/');
    var segs := Split(s, '/');
    assert Split(p, '/')[1..] == segs;
    ResolvePlain(segs, true);
    assert Resolve(Split(p, '/'), true) == segs by {
      ResolvePlainAfterRoot(segs);
    }
    JoinSplit(s, '/');
    assert |s| > 0 && s[|s| - 1] != '/' by {
      LastSegment(s);
    }
  }

  lemma {:induction false} ResolvePlainAfterRoot(segs: seq<String>)
    requires forall i :: 0 <= i < |segs| ==> PlainSegment(segs[i])
    ensures Resolve([""] + segs, true) == segs
  {
    if |segs| == 0 {
      assert [""] + segs == [""];
      assert Resolve([""], true) == PushSegment(Resolve([], true), "", true);
    } else {
      var all := [""] + segs;
      assert all[..|all| - 1] == [""] + segs[..|segs| - 1];
      ResolvePlainAfterRoot(segs[..|segs| - 1]);
      assert segs[..|segs| - 1] + [segs[|segs| - 1]] == segs;
    }
  }

  /** The last segment of a clean path is its end, so the path does not end with '/'. */
  lemma LastSegment(s: String)
    requires CleanPath(s)
    ensures |s| > 0 && s[|s| - 1] != '/'
  {
    var segs := Split(s, '/');
    JoinSplit(s, '/');
    assert PlainSegment(segs[|segs| - 1]);
    JoinLast(segs, "/");
    assert segs[|segs| - 1][|segs[|segs| - 1]| - 1] != '/';
  }

  /** Putting a plain segment in front of a clean path keeps it clean. */
  lemma CleanPrefix(seg: String, s: String)
    requires PlainSegment(seg) && '/' !in seg && CleanPath(s)
    ensures CleanPath(seg + "/" + s)
    ensures Split(seg + "/" + s, '/') == [seg] + Split(s, '/')
  {
    SplitAtFirst(seg, '/', s);
  }

  /**
   * Joining a clean relative path under `/home/<user>` gives `/home/<user>/<path>`, which is what
   * the rest of the bridge slices back off.
   */
  lemma JoinUnderHome(user: String, rel: String)
    requires PlainSegment(user) && '/' !in user && CleanPath(rel)
    ensures PathJoin("/home/" + user, rel) == "/home/" + user + "/" + rel
  {
    CleanPrefix(user, rel);
    CleanPrefix("home", user + "/" + rel);
    LastSegment(rel);
    assert "/home/" + user + "/" + rel == "/" + ("home" + "/" + (user + "/" + rel));
    NormalizeClean("home" + "/" + (user + "/" + rel));
  }
}
