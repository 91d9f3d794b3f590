/**
 * What `extractInfo` reads back from a server block that `applyInfo` has just written: the SSL
 * mode, the addresses, the files and the whole tree of location settings, once the server's
 * user and fastcgi address are passed down to every level.
 */
module NginxRoundTrip {
  import opened Base
  import opened Strings
  import opened Paths
  import opened Nginx

  // ---------------------------------------------------------------------------------------------
  // Looking children up by name
  // ---------------------------------------------------------------------------------------------

  lemma {:induction false} NamedNone(cs: seq<(String, Node)>, name: String)
    requires forall i :: 0 <= i < |cs| ==> cs[i].0 != name
    ensures Named(cs, name) == []
  {
    if |cs| > 0 {
      NamedNone(cs[1..], name);
    }
  }

  lemma {:induction false} NamedAll(cs: seq<(String, Node)>, name: String)
    requires forall i :: 0 <= i < |cs| ==> cs[i].0 == name
    ensures |Named(cs, name)| == |cs| && forall i :: 0 <= i < |cs| ==> Named(cs, name)[i] == cs[i].1
  {
    if |cs| > 0 {
      NamedAll(cs[1..], name);
    }
  }

  predicate Distinct(keys: seq<String>)
  {
    forall i, j :: 0 <= i < j < |keys| ==> keys[i] != keys[j]
  }

  lemma LocationKeysDistinct()
    ensures Distinct(LocationKeys)
  {
    assert LocationKeys[0][0] == 'r' && LocationKeys[1][0] == 'a' && LocationKeys[2][1] == 'e'
      && LocationKeys[3][0] == 't' && LocationKeys[4][2] == 't';
    assert LocationKeys[0][1] == 'o' && LocationKeys[2][0] == 'r' && LocationKeys[4][0] == 'r';
  }

  /** Directives named by key, as `FieldDir` (empty prefix) and `PassengerDir` name them. */
  ghost predicate NamedByKey(add: String -> seq<(String, Node)>, prefix: String)
  {
    forall key, i :: 0 <= i < |add(key)| ==> add(key)[i].0 == prefix + key
  }

  /** Looking up the name of one of the keys finds what that key added. */
  lemma {:induction false} NamedAddedHit(keys: seq<String>, k: nat, add: String -> seq<(String, Node)>, prefix: String, j: nat)
    requires j < k <= |keys| && Distinct(keys) && NamedByKey(add, prefix)
    ensures Named(AddedFor(keys, k, add), prefix + keys[j]) == Named(add(keys[j]), prefix + keys[j])
  {
    var name := prefix + keys[j];
    NamedConcat(AddedFor(keys, k - 1, add), add(keys[k - 1]), name);
    if j == k - 1 {
      forall j' | 0 <= j' < k - 1
        ensures name != prefix + keys[j']
      {
        if name == prefix + keys[j'] {
          PrefixCancel(prefix, keys[j], keys[j']);
        }
      }
      NamedAddedMiss(keys, k - 1, add, prefix, name);
    } else {
      NamedAddedHit(keys, k - 1, add, prefix, j);
      if prefix + keys[k - 1] == name {
        PrefixCancel(prefix, keys[k - 1], keys[j]);
      }
      NamedNone(add(keys[k - 1]), name);
    }
  }

  /** Looking up any other name finds nothing. */
  lemma {:induction false} NamedAddedMiss(keys: seq<String>, k: nat, add: String -> seq<(String, Node)>, prefix: String, name: String)
    requires k <= |keys| && NamedByKey(add, prefix)
    requires forall j :: 0 <= j < k ==> name != prefix + keys[j]
    ensures Named(AddedFor(keys, k, add), name) == []
  {
    if k > 0 {
      NamedConcat(AddedFor(keys, k - 1, add), add(keys[k - 1]), name);
      NamedAddedMiss(keys, k - 1, add, prefix, name);
      NamedNone(add(keys[k - 1]), name);
    }
  }

  // ---------------------------------------------------------------------------------------------
  // Settings the extractor reads back
  // ---------------------------------------------------------------------------------------------

  /** A user name the home directory keeps as one path segment (`undefined` included). */
  predicate HomeUser(user: Option<String>)
  {
    PlainSegment(JsText(user, "undefined")) && '/' !in JsText(user, "undefined")
  }

  /** A setting the extractor reads back: absent, or non-empty. */
  predicate Kept(v: Option<String>)
  {
    v.None? || Truthy(v)
  }

  /** A directory setting the extractor reads back: absent, or a clean relative path. */
  predicate KeptPath(v: Option<String>)
  {
    v.None? || CleanPath(v.value)
  }

  predicate KeptPassenger(p: map<String, Option<String>>)
  {
    forall k :: k in p ==> k in PassengerKeys && Truthy(p[k]) && (IsHomePath(k) ==> CleanPath(p[k].value))
  }

  /** The five location directives and the passenger settings read back. */
  predicate KeptFields(l: Loc)
  {
    KeptPath(l.root) && KeptPath(l.alias) && Kept(l.rewrite) && Kept(l.tryFiles) && Kept(l.ret)
    && KeptPassenger(l.passenger)
  }

  /**
   * A nested location that reads back as written: a truthy match, settings that survive the
   * truthiness tests, no fastcgi mode of its own (that would add a `fastcgi_pass` location the
   * extractor folds into its parent), no `user`/`fcgi`, and nested locations of the same kind.
   */
  predicate NestedLoc(l: Loc)
    decreases l
  {
    Truthy(l.pattern) && l.fastcgi.None? && l.user.None? && l.fcgi.None? && KeptFields(l)
    && forall i :: 0 <= i < |l.locations| ==> NestedLoc(l.locations[i])
  }

  /** The location node a settings record becomes, with the server's user and address. */
  function Written(l: Loc, u: Option<String>, f: Option<String>): Node
  {
    var e := Expand(l, u, f, false);
    Node(l.pattern, if e.Ok? then e.value else [])
  }

  function LocEntries(cs: seq<Loc>, u: Option<String>, f: Option<String>): (r: seq<(String, Node)>)
    ensures |r| == |cs| && forall j :: 0 <= j < |cs| ==> r[j] == ("location", Written(cs[j], u, f))
  {
    seq(|cs|, j requires 0 <= j < |cs| => ("location", Written(cs[j], u, f)))
  }

  lemma {:induction false} ExpandOk(l: Loc, u: Option<String>, f: Option<String>)
    requires NestedLoc(l)
    ensures Expand(l, u, f, false) == Ok(FieldDirs(l, u, LocationKeys, |LocationKeys|)
      + PassengerDirs(l.passenger, u, PassengerKeys, |PassengerKeys|) + LocEntries(l.locations, u, f))
    decreases l, 1
  {
    ExpandLocsShape(l, l.locations, |l.locations|, u, f);
    assert l.locations[..|l.locations|] == l.locations;
  }

  lemma {:induction false} ExpandLocsShape(c: Loc, cs: seq<Loc>, k: nat, u: Option<String>, f: Option<String>)
    requires c.locations == cs && k <= |cs|
    requires forall j :: 0 <= j < |cs| ==> NestedLoc(cs[j])
    ensures ExpandLocs(c, cs, k, u, f, false) == Ok(LocEntries(cs[..k], u, f))
    decreases c, 0, k
  {
    if k > 0 {
      ExpandLocsShape(c, cs, k - 1, u, f);
      ExpandOk(cs[k - 1], u, f);
      assert ExpandOne(c, cs, k - 1, u, f, false) == Ok([("location", Written(cs[k - 1], u, f))]);
      LocEntriesSnoc(cs, k, u, f);
    }
  }

  lemma LocEntriesSnoc(cs: seq<Loc>, k: nat, u: Option<String>, f: Option<String>)
    requires 0 < k <= |cs|
    ensures LocEntries(cs[..k], u, f) == LocEntries(cs[..k - 1], u, f) + [("location", Written(cs[k - 1], u, f))]
  {
  }

  /** The extractor strips exactly the home prefix `applyInfo` joined on. */
  lemma HomeSlice(u: Option<String>, v: String)
    requires HomeUser(u) && CleanPath(v)
    ensures Slice(UnderHome(u, v), |HomeBase(u)|) == v
  {
    var s := JsText(u, "undefined");
    JoinUnderHome(s, v);
    LastSegment(v);
    assert UnderHome(u, v) == HomeBase(u) + v;
  }

  /** A location directive reads back as the setting it was written from. */
  lemma FieldBack(n: Node, c: Loc, u: Option<String>, key: String, base: nat)
    requires Named(n.children, key) == Named(FieldDir(c, u, key), key)
    requires HomeUser(u) && base == |HomeBase(u)|
    requires if key == "root" || key == "alias" then KeptPath(LocField(c, key)) else Kept(LocField(c, key))
    ensures ExtractField(n, key, base) == Ok(LocField(c, key))
  {
    var v := LocField(c, key);
    if (key == "root" || key == "alias") && v.Some? {
      LastSegment(v.value);
      HomeSlice(u, v.value);
    }
  }

  /** The passenger settings among `keys[i..]`, as `ExtractPassenger` collects them. */
  function Among(p: map<String, Option<String>>, keys: seq<String>, i: nat): map<String, Option<String>>
    requires i <= |keys|
  {
    map k | k in p && k in keys[i..] :: p[k]
  }

  lemma PassengerEntryBack(n: Node, p: map<String, Option<String>>, u: Option<String>, k: String, base: nat)
    requires Named(n.children, "passenger_" + k) == Named(PassengerDir(p, u, k), "passenger_" + k)
    requires k in p ==> Truthy(p[k]) && (IsHomePath(k) ==> CleanPath(p[k].value))
    requires HomeUser(u) && base == |HomeBase(u)|
    ensures PassengerEntry(n, k, base) == Ok(if k in p then Some(p[k]) else None)
  {
    if k in p && IsHomePath(k) {
      HomeSlice(u, p[k].value);
    }
  }

  /** The passenger directives read back as the settings they were written from. */
  lemma {:induction false} PassengerBack(n: Node, p: map<String, Option<String>>, u: Option<String>, keys: seq<String>, i: nat, base: nat)
    requires i <= |keys|
    requires forall j :: 0 <= j < |keys| ==>
      Named(n.children, "passenger_" + keys[j]) == Named(PassengerDir(p, u, keys[j]), "passenger_" + keys[j])
    requires forall k :: k in p ==> Truthy(p[k]) && (IsHomePath(k) ==> CleanPath(p[k].value))
    requires HomeUser(u) && base == |HomeBase(u)|
    ensures ExtractPassenger(n, keys, i, base) == Ok(Among(p, keys, i))
    decreases |keys| - i
  {
    if i < |keys| {
      PassengerBack(n, p, u, keys, i + 1, base);
      PassengerEntryBack(n, p, u, keys[i], base);
      AmongStep(p, keys, i);
    } else {
      assert Among(p, keys, i) == map[];
    }
  }

  /** The settings among `keys[i..]` are those among `keys[i + 1..]` and, when set, `keys[i]`. */
  lemma AmongStep(p: map<String, Option<String>>, keys: seq<String>, i: nat)
    requires i < |keys|
    ensures Among(p, keys, i)
            == if keys[i] in p then Among(p, keys, i + 1)[keys[i] := p[keys[i]]] else Among(p, keys, i + 1)
  {
    assert keys[i..] == [keys[i]] + keys[i + 1..];
  }

  // ---------------------------------------------------------------------------------------------
  // The names `expandLocation` writes
  // ---------------------------------------------------------------------------------------------

  lemma PassengerKeysDistinct()
    ensures Distinct(PassengerKeys)
  {
    forall i, j | 0 <= i < j < |PassengerKeys|
      ensures PassengerKeys[i] != PassengerKeys[j]
    {
      var a := PassengerKeys[i];
      var b := PassengerKeys[j];
      if |a| == |b| {
        assert a[0] != b[0] || a[4] != b[4];
      }
    }
  }

  lemma FieldAdderKeyed(c: Loc, u: Option<String>)
    ensures NamedByKey(FieldAdder(c, u), "")
  {
    forall key, i | 0 <= i < |FieldAdder(c, u)(key)|
      ensures FieldAdder(c, u)(key)[i].0 == "" + key
    {
      assert "" + key == key;
    }
  }

  lemma PassengerAdderKeyed(p: map<String, Option<String>>, u: Option<String>)
    ensures NamedByKey(PassengerAdder(p, u), "passenger_")
  {
  }

  /** The location directives hold each location key once, and no other name. */
  lemma NamedOfFields(c: Loc, u: Option<String>, name: String)
    ensures name in LocationKeys ==>
      Named(FieldDirs(c, u, LocationKeys, |LocationKeys|), name) == Named(FieldDir(c, u, name), name)
    ensures name !in LocationKeys ==> Named(FieldDirs(c, u, LocationKeys, |LocationKeys|), name) == []
  {
    FieldAdderKeyed(c, u);
    if name in LocationKeys {
      LocationKeysDistinct();
      var j :| 0 <= j < |LocationKeys| && LocationKeys[j] == name;
      assert "" + LocationKeys[j] == name;
      NamedAddedHit(LocationKeys, |LocationKeys|, FieldAdder(c, u), "", j);
    } else {
      forall j | 0 <= j < |LocationKeys|
        ensures name != "" + LocationKeys[j]
      {
        assert "" + LocationKeys[j] == LocationKeys[j];
      }
      NamedAddedMiss(LocationKeys, |LocationKeys|, FieldAdder(c, u), "", name);
    }
  }

  /** The passenger directives hold each passenger key once. */
  lemma NamedOfPassenger(p: map<String, Option<String>>, u: Option<String>, key: String)
    requires key in PassengerKeys
    ensures Named(PassengerDirs(p, u, PassengerKeys, |PassengerKeys|), "passenger_" + key)
      == Named(PassengerDir(p, u, key), "passenger_" + key)
  {
    PassengerAdderKeyed(p, u);
    PassengerKeysDistinct();
    var j :| 0 <= j < |PassengerKeys| && PassengerKeys[j] == key;
    NamedAddedHit(PassengerKeys, |PassengerKeys|, PassengerAdder(p, u), "passenger_", j);
  }

  /** ... and no name without the `passenger_` prefix. */
  lemma NamedOfPassengerOther(p: map<String, Option<String>>, u: Option<String>, name: String)
    requires !StartsWith(name, "passenger_")
    ensures Named(PassengerDirs(p, u, PassengerKeys, |PassengerKeys|), name) == []
  {
    PassengerAdderKeyed(p, u);
    forall j | 0 <= j < |PassengerKeys|
      ensures name != "passenger_" + PassengerKeys[j]
    {
      StartsWithConcat("passenger_", PassengerKeys[j]);
    }
    NamedAddedMiss(PassengerKeys, |PassengerKeys|, PassengerAdder(p, u), "passenger_", name);
  }

  /** Looking a name up in the location and passenger directives followed by `rest`. */
  lemma NamedLayout(c: Loc, u: Option<String>, rest: seq<(String, Node)>, name: String)
    ensures Named(FieldDirs(c, u, LocationKeys, |LocationKeys|) + PassengerDirs(c.passenger, u, PassengerKeys, |PassengerKeys|) + rest, name)
      == Named(FieldDirs(c, u, LocationKeys, |LocationKeys|), name)
        + Named(PassengerDirs(c.passenger, u, PassengerKeys, |PassengerKeys|), name) + Named(rest, name)
  {
    var fd := FieldDirs(c, u, LocationKeys, |LocationKeys|);
    var pd := PassengerDirs(c.passenger, u, PassengerKeys, |PassengerKeys|);
    NamedConcat(fd + pd, rest, name);
    NamedConcat(fd, pd, name);
  }

  /** The layout of a written location: its directives, then nested locations only. */
  predicate Layout(n: Node, c: Loc, u: Option<String>, rest: seq<(String, Node)>)
  {
    && n.children == FieldDirs(c, u, LocationKeys, |LocationKeys|)
      + PassengerDirs(c.passenger, u, PassengerKeys, |PassengerKeys|) + rest
    && forall i :: 0 <= i < |rest| ==> rest[i].0 == "location"
  }

  lemma LayoutField(n: Node, c: Loc, u: Option<String>, rest: seq<(String, Node)>, key: String)
    requires Layout(n, c, u, rest) && key in LocationKeys
    ensures Named(n.children, key) == Named(FieldDir(c, u, key), key)
  {
    NamedLayout(c, u, rest, key);
    NamedOfFields(c, u, key);
    assert key[0] != 'p' && key != "location";
    NamedOfPassengerOther(c.passenger, u, key);
    NamedNone(rest, key);
  }

  lemma LayoutPassenger(n: Node, c: Loc, u: Option<String>, rest: seq<(String, Node)>, key: String)
    requires Layout(n, c, u, rest) && key in PassengerKeys
    ensures Named(n.children, "passenger_" + key) == Named(PassengerDir(c.passenger, u, key), "passenger_" + key)
  {
    var name := "passenger_" + key;
    NamedLayout(c, u, rest, name);
    assert name[0] == 'p' && name[1] == 'a';
    NamedOfFields(c, u, name);
    NamedOfPassenger(c.passenger, u, key);
    NamedNone(rest, name);
  }

  lemma LayoutOther(n: Node, c: Loc, u: Option<String>, rest: seq<(String, Node)>)
    requires Layout(n, c, u, rest)
    ensures Named(n.children, "location") == Named(rest, "location")
    ensures Dir(n, "fastcgi_pass").None?
  {
    LayoutLocations(n, c, u, rest);
    LayoutNoCgi(n, c, u, rest);
  }

  lemma LayoutLocations(n: Node, c: Loc, u: Option<String>, rest: seq<(String, Node)>)
    requires Layout(n, c, u, rest)
    ensures Named(n.children, "location") == Named(rest, "location")
  {
    NamedLayout(c, u, rest, "location");
    assert "location"[0] != 'p';
    NamedOfFields(c, u, "location");
    NamedOfPassengerOther(c.passenger, u, "location");
  }

  lemma LayoutNoCgi(n: Node, c: Loc, u: Option<String>, rest: seq<(String, Node)>)
    requires Layout(n, c, u, rest)
    ensures Dir(n, "fastcgi_pass").None?
  {
    NamedLayout(c, u, rest, "fastcgi_pass");
    assert "fastcgi_pass"[0] != 'p';
    NamedOfFields(c, u, "fastcgi_pass");
    NamedOfPassengerOther(c.passenger, u, "fastcgi_pass");
    NamedNone(rest, "fastcgi_pass");
  }

  /** What a node laid out as a written location holds, by name. */
  lemma LayoutLookups(n: Node, c: Loc, u: Option<String>, rest: seq<(String, Node)>)
    requires Layout(n, c, u, rest)
    ensures forall key :: key in LocationKeys ==> Named(n.children, key) == Named(FieldDir(c, u, key), key)
    ensures forall key :: key in PassengerKeys ==>
      Named(n.children, "passenger_" + key) == Named(PassengerDir(c.passenger, u, key), "passenger_" + key)
    ensures Named(n.children, "location") == Named(rest, "location")
    ensures Dir(n, "fastcgi_pass").None?
  {
    forall key | key in LocationKeys
      ensures Named(n.children, key) == Named(FieldDir(c, u, key), key)
    {
      LayoutField(n, c, u, rest, key);
    }
    forall key | key in PassengerKeys
      ensures Named(n.children, "passenger_" + key) == Named(PassengerDir(c.passenger, u, key), "passenger_" + key)
    {
      LayoutPassenger(n, c, u, rest, key);
    }
    LayoutOther(n, c, u, rest);
  }

  // ---------------------------------------------------------------------------------------------
  // Locations read back
  // ---------------------------------------------------------------------------------------------

  /** The settings of a written record read back, field by field. */
  lemma FieldsBack(n: Node, c: Loc, u: Option<String>, base: nat)
    requires forall key :: key in LocationKeys ==> Named(n.children, key) == Named(FieldDir(c, u, key), key)
    requires forall key :: key in PassengerKeys ==>
      Named(n.children, "passenger_" + key) == Named(PassengerDir(c.passenger, u, key), "passenger_" + key)
    requires KeptFields(c) && HomeUser(u) && base == |HomeBase(u)|
    ensures ExtractField(n, "root", base) == Ok(c.root)
    ensures ExtractField(n, "alias", base) == Ok(c.alias)
    ensures ExtractField(n, "rewrite", base) == Ok(c.rewrite)
    ensures ExtractField(n, "try_files", base) == Ok(c.tryFiles)
    ensures ExtractField(n, "return", base) == Ok(c.ret)
    ensures ExtractPassenger(n, PassengerKeys, 0, base) == Ok(c.passenger)
  {
    DirsBack(n, c, u, base);
    AllPassengerFieldsBack(n, c, u, base);
  }

  /** The five location directives of a written record read back. */
  lemma DirsBack(n: Node, c: Loc, u: Option<String>, base: nat)
    requires forall key :: key in LocationKeys ==> Named(n.children, key) == Named(FieldDir(c, u, key), key)
    requires KeptFields(c) && HomeUser(u) && base == |HomeBase(u)|
    ensures ExtractField(n, "root", base) == Ok(c.root)
    ensures ExtractField(n, "alias", base) == Ok(c.alias)
    ensures ExtractField(n, "rewrite", base) == Ok(c.rewrite)
    ensures ExtractField(n, "try_files", base) == Ok(c.tryFiles)
    ensures ExtractField(n, "return", base) == Ok(c.ret)
  {
    PathDirsBack(n, c, u, base);
    FieldBack(n, c, u, "rewrite", base);
    FieldBack(n, c, u, "try_files", base);
    FieldBack(n, c, u, "return", base);
  }

  lemma PathDirsBack(n: Node, c: Loc, u: Option<String>, base: nat)
    requires forall key :: key in LocationKeys ==> Named(n.children, key) == Named(FieldDir(c, u, key), key)
    requires KeptFields(c) && HomeUser(u) && base == |HomeBase(u)|
    ensures ExtractField(n, "root", base) == Ok(c.root)
    ensures ExtractField(n, "alias", base) == Ok(c.alias)
  {
    FieldBack(n, c, u, "root", base);
    FieldBack(n, c, u, "alias", base);
  }

  /** The passenger settings of a written record read back whole. */
  lemma AllPassengerFieldsBack(n: Node, c: Loc, u: Option<String>, base: nat)
    requires forall key :: key in PassengerKeys ==>
      Named(n.children, "passenger_" + key) == Named(PassengerDir(c.passenger, u, key), "passenger_" + key)
    requires KeptFields(c) && HomeUser(u) && base == |HomeBase(u)|
    ensures ExtractPassenger(n, PassengerKeys, 0, base) == Ok(c.passenger)
  {
    PassengerBack(n, c.passenger, u, PassengerKeys, 0, base);
    AmongWhole(c.passenger, PassengerKeys);
  }

  lemma AmongWhole(p: map<String, Option<String>>, keys: seq<String>)
    requires forall k :: k in p ==> k in keys
    ensures Among(p, keys, 0) == p
  {
    assert keys[0..] == keys;
  }

  /** Location children from `i` on that all hold `fastcgi_pass` list nothing and turn fastcgi on. */
  lemma {:induction false} CgiTail(n: Node, ls: seq<Node>, i: nat, base: nat, keys: seq<String>)
    requires ls == Named(n.children, "location") && i <= |ls|
    requires forall j :: i <= j < |ls| ==> Dir(ls[j], "fastcgi_pass").Some?
    ensures ExtractLocList(n, ls, i, base, keys) == Ok(([], i < |ls|))
    decreases |ls| - i
  {
    if i < |ls| {
      CgiTail(n, ls, i + 1, base, keys);
    }
  }

  /** A written nested location reads back as its settings. */
  lemma {:induction false} LocBack(l: Loc, u: Option<String>, f: Option<String>, base: nat)
    requires NestedLoc(l) && HomeUser(u) && base == |HomeBase(u)|
    ensures ExtractLoc(Written(l, u, f), base, PassengerKeys) == Ok(l)
    decreases l, 1
  {
    WrittenFieldsBack(l, u, f, base);
    WrittenLocList(l, u, f, base);
  }

  /** The directives of a written nested location read back as its settings. */
  lemma WrittenFieldsBack(l: Loc, u: Option<String>, f: Option<String>, base: nat)
    requires NestedLoc(l) && HomeUser(u) && base == |HomeBase(u)|
    ensures var n := Written(l, u, f);
            && ExtractField(n, "root", base) == Ok(l.root)
            && ExtractField(n, "alias", base) == Ok(l.alias)
            && ExtractField(n, "rewrite", base) == Ok(l.rewrite)
            && ExtractField(n, "try_files", base) == Ok(l.tryFiles)
            && ExtractField(n, "return", base) == Ok(l.ret)
            && ExtractPassenger(n, PassengerKeys, 0, base) == Ok(l.passenger)
  {
    ExpandOk(l, u, f);
    var n := Written(l, u, f);
    LayoutLookups(n, l, u, LocEntries(l.locations, u, f));
    FieldsBack(n, l, u, base);
  }

  /** The location children of a written nested location read back as its nested settings. */
  lemma {:induction false} WrittenLocList(l: Loc, u: Option<String>, f: Option<String>, base: nat)
    requires NestedLoc(l) && HomeUser(u) && base == |HomeBase(u)|
    ensures var n := Written(l, u, f);
            ExtractLocList(n, Named(n.children, "location"), 0, base, PassengerKeys) == Ok((l.locations, false))
    decreases l, 0, |l.locations| + 1
  {
    ExpandOk(l, u, f);
    var n := Written(l, u, f);
    var rest := LocEntries(l.locations, u, f);
    LayoutLocations(n, l, u, rest);
    NamedAll(rest, "location");
    var ls := Named(n.children, "location");
    LocListBack(l, n, ls, 0, l.locations, u, f, base);
    assert l.locations[0..] == l.locations;
  }

  /**
   * The location children of a written node: the nested records' locations, then only
   * locations holding `fastcgi_pass`.
   */
  lemma {:induction false} LocListBack(parent: Loc, n: Node, ls: seq<Node>, i: nat, cs: seq<Loc>, u: Option<String>, f: Option<String>, base: nat)
    requires cs == parent.locations && ls == Named(n.children, "location") && i <= |cs| <= |ls|
    requires forall j :: 0 <= j < |cs| ==> ls[j] == Written(cs[j], u, f) && NestedLoc(cs[j])
    requires forall j :: |cs| <= j < |ls| ==> Dir(ls[j], "fastcgi_pass").Some?
    requires HomeUser(u) && base == |HomeBase(u)|
    ensures ExtractLocList(n, ls, i, base, PassengerKeys) == Ok((cs[i..], |ls| > |cs|))
    decreases parent, 0, |cs| - i
  {
    if i == |cs| {
      CgiTail(n, ls, i, base, PassengerKeys);
      assert cs[i..] == [];
    } else {
      WrittenNoCgi(cs[i], u, f);
      LocBack(cs[i], u, f, base);
      LocListBack(parent, n, ls, i + 1, cs, u, f, base);
      LocListStep(n, ls, i, base, cs[i], (cs[i + 1..], |ls| > |cs|));
      ConsAt(cs, i);
    }
  }

  /** One location without `fastcgi_pass` read back, in front of the rest. */
  lemma LocListStep(n: Node, ls: seq<Node>, i: nat, base: nat, l: Loc, rest: (seq<Loc>, bool))
    requires ls == Named(n.children, "location") && i < |ls|
    requires Dir(ls[i], "fastcgi_pass").None? && ExtractLoc(ls[i], base, PassengerKeys) == Ok(l)
    requires ExtractLocList(n, ls, i + 1, base, PassengerKeys) == Ok(rest)
    ensures ExtractLocList(n, ls, i, base, PassengerKeys) == Ok(([l] + rest.0, rest.1))
  {
  }

  /** A written nested location holds no `fastcgi_pass` of its own. */
  lemma WrittenNoCgi(l: Loc, u: Option<String>, f: Option<String>)
    requires NestedLoc(l)
    ensures Dir(Written(l, u, f), "fastcgi_pass").None?
  {
    ExpandOk(l, u, f);
    LayoutNoCgi(Written(l, u, f), l, u, LocEntries(l.locations, u, f));
  }
}
