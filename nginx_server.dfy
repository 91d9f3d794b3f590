/**
 * The whole server block: what `extractInfo` reads back from the block `applyInfo` writes, and
 * what it reads back when, as written, `expandLocation` takes the user and the fastcgi address
 * from the settings record instead of from the server.
 */
module NginxServer {
  import opened Base
  import opened Strings
  import opened Paths
  import opened Nginx
  import opened NginxRoundTrip

  // ---------------------------------------------------------------------------------------------
  // The listen directives
  // ---------------------------------------------------------------------------------------------

  /**
   * An address the `listen` loop reads back: one word, no ":443" suffix, no "ssl" in it, and a
   * leading '[' exactly for the IPv6 one.
   */
  predicate Address(a: Option<String>, v6: bool)
  {
    a.Some? && ' ' !in a.value && !EndsWith(a.value, ":443") && StartsWith(a.value, "[") == v6
    && !Contains(a.value, "ssl")
  }

  /** The SSL bitmask an SSL mode writes: "off" listens plain only, "enforce" SSL only. */
  function SslMask(ssl: Option<String>): nat
  {
    if ssl == Some("off") then 1 else if ssl == Some("enforce") then 2 else 3
  }

  lemma PlainListen(a: String)
    requires ' ' !in a && !EndsWith(a, ":443")
    ensures ListenAddress(a) == a
  {
    SplitNoSeparator(a, ' ');
  }

  lemma SecureListen(a: String)
    requires ' ' !in a
    ensures ListenAddress(a + ":443 ssl http2") == a
    ensures Contains(a + ":443 ssl http2", "ssl")
    ensures StartsWith(a + ":443 ssl http2", "[") == StartsWith(a, "[")
  {
    SecureListenAddress(a);
    var s := a + ":443 ssl http2";
    assert OccursAt(s, "ssl", |a| + 5);
    if |a| > 0 {
      assert s[..1] == a[..1];
    }
  }

  lemma SecureListenAddress(a: String)
    requires ' ' !in a
    ensures ListenAddress(a + ":443 ssl http2") == a
  {
    var w := a + ":443";
    assert a + ":443 ssl http2" == w + [' '] + "ssl http2";
    SplitAtFirst(w, ' ', "ssl http2");
    assert w[|w| - 4..] == ":443";
    assert w[..|w| - 4] == a;
  }

  /** The listen nodes `applyInfo` writes scan back to the addresses and the SSL mode. */
  lemma ListenBack(info: Info)
    requires Address(info.ip, false) && Address(info.ip6, true)
    ensures ScanListens(Named(ListenDirs(info), "listen")) == Ok(Listens(
      info.config.ssl != Some("enforce"), info.config.ssl != Some("off"), info.ip, info.ip6))
    ensures Mask(Listens(info.config.ssl != Some("enforce"), info.config.ssl != Some("off"), info.ip, info.ip6))
      == SslMask(info.config.ssl)
  {
    var ip := info.ip.value;
    var ip6 := info.ip6.value;
    PlainListen(ip);
    PlainListen(ip6);
    SecureListen(ip);
    SecureListen(ip6);
    var plain := [Leaf(info.ip), Leaf(info.ip6)];
    var secure := [Leaf(Some(ip + ":443 ssl http2")), Leaf(Some(ip6 + ":443 ssl http2"))];
    var ds := ListenDirs(info);
    NamedAll(ds, "listen");
    var ls := Named(ds, "listen");
    var start := Listens(false, false, None, None);
    if info.config.ssl == Some("enforce") {
      assert ls == secure;
      assert ls[..1] == secure[..1];
      assert ScanListens(ls[..1]) == Ok(start.(ip := info.ip, secure := true));
    } else if info.config.ssl == Some("off") {
      assert ls == plain;
      assert ls[..1] == plain[..1];
      assert ScanListens(ls[..1]) == Ok(start.(ip := info.ip, plain := true));
    } else {
      assert ls == plain + secure;
      assert ls[..1] == plain[..1];
      assert ls[..2] == plain;
      assert ls[..3] == plain + secure[..1];
      var two := start.(ip := info.ip, ip6 := info.ip6, plain := true);
      assert ScanListens(ls[..1]) == Ok(start.(ip := info.ip, plain := true));
      assert ScanListens(ls[..2]) == Ok(two);
      assert ScanListens(ls[..3]) == Ok(two.(secure := true));
    }
  }

  // ---------------------------------------------------------------------------------------------
  // The record that reads back
  // ---------------------------------------------------------------------------------------------

  /**
   * The server's own settings that read back: no `user`/`fcgi` (the extractor never sets them),
   * a fastcgi mode that adds a location of its own, kept directives and passenger settings, and
   * nested locations that read back.
   */
  predicate TopKept(l: Loc)
  {
    l.user.None? && l.fcgi.None?
    && (!Truthy(l.fastcgi) || l.fastcgi == Some("on") || l.fastcgi == Some("off"))
    && Kept(l.rewrite) && Kept(l.tryFiles) && Kept(l.ret) && KeptPassenger(l.passenger)
    && forall i :: 0 <= i < |l.locations| ==> NestedLoc(l.locations[i])
  }

  /**
   * An info record that reads back: addresses the listen loop recovers, a root under the home
   * of a user that is one path segment, a certificate pair, an absent or non-empty fastcgi
   * address and settings that read back.
   */
  predicate Readable(info: Info)
  {
    Address(info.ip, false) && Address(info.ip6, true)
    && HomeUser(info.user) && info.user == UserOf(info.root)
    && info.certs.Some? && Kept(info.fcgi)
    && TopKept(info.config.loc)
  }

  /**
   * What `extractInfo(node, domain)` returns for the block `applyInfo(node, info)` wrote: the
   * SSL mode normalised through the bitmask, the domain asked for, the server's settings without
   * match, root and alias, and fastcgi "on", since both "on" and "off" write a location holding
   * `fastcgi_pass`.
   */
  function ReadBack(info: Info, domain: String): Info
  {
    var m := SslMask(info.config.ssl);
    var l := info.config.loc;
    info.(ssl := m, dom := domain,
      config := Config(l.(pattern := None, root := None, alias := None, fastcgi := Some("on")),
        Some(SslNames[m]), info.config.errorPages))
  }

  // ---------------------------------------------------------------------------------------------
  // The written block
  // ---------------------------------------------------------------------------------------------

  /** The directives `applyInfo` writes before it expands the settings. */
  function Head(info: Info): seq<(String, Node)>
  {
    [("server_name", Leaf(Some(info.dom)))] + ListenDirs(info) + FileDirs(info)
      + ErrorPageDirs(info.config.errorPages)
  }

  /** The location the fastcgi mode "on" or "off" adds. */
  function CgiNode(mode: Option<String>, f: Option<String>): Node
  {
    if mode == Some("on") then
      Node(Some(PhpMatch), [("try_files", Leaf(Some("$uri =404"))), ("fastcgi_pass", Leaf(f))])
    else
      Node(Some(DisabledPhpMatch), [("return", Leaf(Some("404"))), ("fastcgi_pass", Leaf(f))])
  }

  /** The locations after the server's own directives: the nested ones, then the fastcgi one. */
  function TopRest(info: Info, u: Option<String>, f: Option<String>): seq<(String, Node)>
  {
    LocEntries(info.config.loc.locations, u, f) + [("location", CgiNode(TopLoc(info).fastcgi, f))]
  }

  function Body(info: Info, u: Option<String>, f: Option<String>): seq<(String, Node)>
  {
    var c := TopLoc(info);
    FieldDirs(c, u, LocationKeys, |LocationKeys|) + PassengerDirs(c.passenger, u, PassengerKeys, |PassengerKeys|)
      + TopRest(info, u, f)
  }

  lemma TopExpand(info: Info, u: Option<String>, f: Option<String>)
    requires TopKept(info.config.loc)
    ensures Expand(TopLoc(info), u, f, false) == Ok(Body(info, u, f))
  {
    var c := TopLoc(info);
    ExpandLocsShape(c, c.locations, |c.locations|, u, f);
    assert c.locations[..|c.locations|] == c.locations;
  }

  lemma ApplyShape(info: Info)
    requires TopKept(info.config.loc)
    ensures ApplyDirs(info, true) == Ok(Head(info) + Body(info, info.user, info.fcgi))
  {
    TopExpand(info, info.user, info.fcgi);
  }

  // ---------------------------------------------------------------------------------------------
  // Looking names up in the written block
  // ---------------------------------------------------------------------------------------------

  /** The names the head uses. */
  predicate HeadName(name: String)
  {
    name == "server_name" || name == "listen" || name == "root" || name == "access_log"
    || name == "error_log" || name == "ssl_certificate" || name == "ssl_certificate_key"
    || name == "error_page"
  }

  lemma HeadSplit(info: Info, name: String)
    ensures Named(Head(info), name) == Named([("server_name", Leaf(Some(info.dom)))], name)
      + Named(ListenDirs(info), name) + Named(FileDirs(info), name)
      + Named(ErrorPageDirs(info.config.errorPages), name)
  {
    var a := [("server_name", Leaf(Some(info.dom)))];
    NamedConcat(a + ListenDirs(info) + FileDirs(info), ErrorPageDirs(info.config.errorPages), name);
    NamedConcat(a + ListenDirs(info), FileDirs(info), name);
    NamedConcat(a, ListenDirs(info), name);
  }

  lemma HeadMiss(info: Info, name: String)
    requires !HeadName(name)
    ensures Named(Head(info), name) == []
  {
    HeadSplit(info, name);
    NamedNone([("server_name", Leaf(Some(info.dom)))], name);
    NamedNone(ListenDirs(info), name);
    NamedNone(FileDirs(info), name);
    NamedNone(ErrorPageDirs(info.config.errorPages), name);
  }

  /** A name that only the `j`th child carries finds that child alone. */
  lemma NamedOnce(cs: seq<(String, Node)>, j: nat, name: String)
    requires j < |cs| && cs[j].0 == name
    requires forall i :: 0 <= i < |cs| && i != j ==> cs[i].0 != name
    ensures Named(cs, name) == [cs[j].1]
  {
    assert cs == cs[..j] + [cs[j]] + cs[j + 1..];
    NamedConcat(cs[..j] + [cs[j]], cs[j + 1..], name);
    NamedConcat(cs[..j], [cs[j]], name);
    NamedNone(cs[..j], name);
    NamedNone(cs[j + 1..], name);
    assert Named([cs[j]], name) == [cs[j].1] + Named([cs[j]][1..], name);
  }

  /** Each of the five files of the head is found once, under its own name. */
  lemma HeadFile(info: Info, j: nat)
    requires j < 5
    ensures Named(Head(info), FileDirs(info)[j].0) == [FileDirs(info)[j].1]
  {
    var fs := FileDirs(info);
    var name := fs[j].0;
    HeadSplit(info, name);
    NamedNone([("server_name", Leaf(Some(info.dom)))], name);
    NamedNone(ListenDirs(info), name);
    NamedNone(ErrorPageDirs(info.config.errorPages), name);
    NamedOnce(fs, j, name);
  }

  lemma HeadListen(info: Info)
    ensures Named(Head(info), "listen") == Named(ListenDirs(info), "listen")
  {
    HeadSplit(info, "listen");
    NamedNone([("server_name", Leaf(Some(info.dom)))], "listen");
    NamedNone(FileDirs(info), "listen");
    NamedNone(ErrorPageDirs(info.config.errorPages), "listen");
  }

  lemma HeadErrorPages(info: Info)
    ensures Named(Head(info), "error_page") == Named(ErrorPageDirs(info.config.errorPages), "error_page")
  {
    HeadSplit(info, "error_page");
    NamedNone([("server_name", Leaf(Some(info.dom)))], "error_page");
    NamedNone(ListenDirs(info), "error_page");
    NamedNone(FileDirs(info), "error_page");
  }

  /** A name that is no location key, no passenger directive and no location is not in a layout. */
  lemma LayoutMiss(n: Node, c: Loc, u: Option<String>, rest: seq<(String, Node)>, name: String)
    requires Layout(n, c, u, rest) && name !in LocationKeys && !StartsWith(name, "passenger_") && name != "location"
    ensures Named(n.children, name) == []
  {
    NamedLayout(c, u, rest, name);
    NamedOfFields(c, u, name);
    NamedOfPassengerOther(c.passenger, u, name);
    NamedNone(rest, name);
  }

  lemma HeadNames(name: String)
    requires HeadName(name)
    ensures name != "root" ==> name !in LocationKeys
    ensures !StartsWith(name, "passenger_") && name != "location"
  {
    assert name[0] != 'p';
  }

  /** The body holds none of the head's names. */
  lemma BodyMiss(info: Info, u: Option<String>, f: Option<String>, name: String)
    requires HeadName(name)
    ensures Named(Body(info, u, f), name) == []
  {
    var c := TopLoc(info);
    var rest := TopRest(info, u, f);
    var b := Node(None, Body(info, u, f));
    assert Layout(b, c, u, rest);
    HeadNames(name);
    if name == "root" {
      NamedLayout(c, u, rest, name);
      NamedOfFields(c, u, name);
      NamedOfPassengerOther(c.passenger, u, name);
      NamedNone(rest, name);
    } else {
      LayoutMiss(b, c, u, rest, name);
    }
  }

  lemma BlockField(info: Info, u: Option<String>, f: Option<String>, key: String)
    requires key in LocationKeys && key != "root"
    ensures Named(Head(info) + Body(info, u, f), key) == Named(FieldDir(TopLoc(info), u, key), key)
  {
    var b := Node(None, Body(info, u, f));
    assert Layout(b, TopLoc(info), u, TopRest(info, u, f));
    NamedConcat(Head(info), b.children, key);
    HeadMiss(info, key);
    LayoutField(b, TopLoc(info), u, TopRest(info, u, f), key);
  }

  lemma BlockPassenger(info: Info, u: Option<String>, f: Option<String>, key: String)
    requires key in PassengerKeys
    ensures Named(Head(info) + Body(info, u, f), "passenger_" + key)
      == Named(PassengerDir(TopLoc(info).passenger, u, key), "passenger_" + key)
  {
    var b := Node(None, Body(info, u, f));
    var name := "passenger_" + key;
    assert Layout(b, TopLoc(info), u, TopRest(info, u, f));
    NamedConcat(Head(info), b.children, name);
    assert name[0] == 'p' && name[1] == 'a';
    HeadMiss(info, name);
    LayoutPassenger(b, TopLoc(info), u, TopRest(info, u, f), key);
  }

  lemma BlockOther(info: Info, u: Option<String>, f: Option<String>)
    ensures Named(Head(info) + Body(info, u, f), "location") == Named(TopRest(info, u, f), "location")
    ensures Named(Head(info) + Body(info, u, f), "fastcgi_pass") == []
  {
    var b := Node(None, Body(info, u, f));
    assert Layout(b, TopLoc(info), u, TopRest(info, u, f));
    LayoutOther(b, TopLoc(info), u, TopRest(info, u, f));
    NamedConcat(Head(info), b.children, "location");
    HeadMiss(info, "location");
    NamedConcat(Head(info), b.children, "fastcgi_pass");
    HeadMiss(info, "fastcgi_pass");
  }

  /** The written block, its children looked up by name. */
  lemma BlockLookups(info: Info, u: Option<String>, f: Option<String>)
    ensures var n := Node(None, Head(info) + Body(info, u, f));
      && (forall key :: key in LocationKeys && key != "root" ==>
        Named(n.children, key) == Named(FieldDir(TopLoc(info), u, key), key))
      && (forall key :: key in PassengerKeys ==>
        Named(n.children, "passenger_" + key) == Named(PassengerDir(TopLoc(info).passenger, u, key), "passenger_" + key))
      && Named(n.children, "location") == Named(TopRest(info, u, f), "location")
      && Dir(n, "fastcgi_pass").None?
  {
    forall key | key in LocationKeys && key != "root"
      ensures Named(Head(info) + Body(info, u, f), key) == Named(FieldDir(TopLoc(info), u, key), key)
    {
      BlockField(info, u, f, key);
    }
    forall key | key in PassengerKeys
      ensures Named(Head(info) + Body(info, u, f), "passenger_" + key)
        == Named(PassengerDir(TopLoc(info).passenger, u, key), "passenger_" + key)
    {
      BlockPassenger(info, u, f, key);
    }
    BlockOther(info, u, f);
  }

  /** The head's directives are found in the whole block as in the head alone. */
  lemma BlockHead(info: Info, u: Option<String>, f: Option<String>, name: String)
    requires HeadName(name)
    ensures Named(Head(info) + Body(info, u, f), name) == Named(Head(info), name)
  {
    NamedConcat(Head(info), Body(info, u, f), name);
    BodyMiss(info, u, f, name);
  }

  // ---------------------------------------------------------------------------------------------
  // The fastcgi address read back
  // ---------------------------------------------------------------------------------------------

  /** A written nested location holds no `fastcgi_pass` at any depth. */
  lemma {:induction false} NoCgi(l: Loc, u: Option<String>, f: Option<String>)
    requires NestedLoc(l)
    ensures FindFastCgi(Written(l, u, f)) == Ok(None)
    decreases l, 1
  {
    ExpandOk(l, u, f);
    var n := Written(l, u, f);
    var rest := LocEntries(l.locations, u, f);
    assert Layout(n, l, u, rest);
    LayoutOther(n, l, u, rest);
    NamedAll(rest, "location");
    NoCgiFrom(l, n, Named(n.children, "location"), 0, l.locations, u, f);
  }

  /** The search for a fastcgi address passes over the written nested locations. */
  lemma {:induction false} NoCgiFrom(parent: Loc, n: Node, ls: seq<Node>, i: nat, cs: seq<Loc>, u: Option<String>, f: Option<String>)
    requires cs == parent.locations && ls == Named(n.children, "location") && i <= |cs| <= |ls|
    requires forall j :: 0 <= j < |cs| ==> ls[j] == Written(cs[j], u, f) && NestedLoc(cs[j])
    ensures FindFastCgiFrom(n, ls, i) == FindFastCgiFrom(n, ls, |cs|)
    decreases parent, 0, |cs| - i
  {
    if i < |cs| {
      NoCgi(cs[i], u, f);
      NoCgiFrom(parent, n, ls, i + 1, cs, u, f);
    }
  }

  /** The locations of the written block, as found by name. */
  lemma BlockLocations(info: Info, u: Option<String>, f: Option<String>)
    requires TopKept(info.config.loc)
    ensures var ls := Named(Head(info) + Body(info, u, f), "location");
      var cs := info.config.loc.locations;
      && |ls| == |cs| + 1
      && (forall j :: 0 <= j < |cs| ==> ls[j] == Written(cs[j], u, f) && NestedLoc(cs[j]))
      && ls[|cs|] == CgiNode(TopLoc(info).fastcgi, f)
  {
    BlockOther(info, u, f);
    NamedAll(TopRest(info, u, f), "location");
  }

  /** The block's fastcgi address is the one its fastcgi location was written with. */
  lemma BlockCgi(info: Info, u: Option<String>, f: Option<String>)
    requires TopKept(info.config.loc) && Kept(f)
    ensures FindFastCgi(Node(None, Head(info) + Body(info, u, f))) == Ok(f)
  {
    var n := Node(None, Head(info) + Body(info, u, f));
    var cs := info.config.loc.locations;
    BlockOther(info, u, f);
    BlockLocations(info, u, f);
    var ls := Named(n.children, "location");
    NoCgiFrom(TopLoc(info), n, ls, 0, cs, u, f);
    CgiNodePass(TopLoc(info).fastcgi, f);
  }

  // ---------------------------------------------------------------------------------------------
  // The server's settings read back
  // ---------------------------------------------------------------------------------------------

  /** A location directive of the block reads back as the server's setting; no alias was written. */
  lemma TopFieldBack(info: Info, u: Option<String>, f: Option<String>, base: nat, key: String)
    requires TopKept(info.config.loc) && HomeUser(u) && base == |HomeBase(u)|
    requires key in LocationKeys && key != "root"
    ensures ExtractField(Node(None, Head(info) + Body(info, u, f)), key, base) == Ok(LocField(TopLoc(info), key))
  {
    BlockField(info, u, f, key);
    FieldBack(Node(None, Head(info) + Body(info, u, f)), TopLoc(info), u, key, base);
  }

  /** The block's passenger directives read back as the server's passenger settings. */
  lemma TopPassengerBack(info: Info, u: Option<String>, f: Option<String>, base: nat)
    requires TopKept(info.config.loc) && HomeUser(u) && base == |HomeBase(u)|
    ensures ExtractPassenger(Node(None, Head(info) + Body(info, u, f)), PassengerKeys, 0, base)
      == Ok(info.config.loc.passenger)
  {
    var n := Node(None, Head(info) + Body(info, u, f));
    var p := TopLoc(info).passenger;
    forall j | 0 <= j < |PassengerKeys|
      ensures Named(n.children, "passenger_" + PassengerKeys[j]) == Named(PassengerDir(p, u, PassengerKeys[j]), "passenger_" + PassengerKeys[j])
    {
      BlockPassenger(info, u, f, PassengerKeys[j]);
    }
    AllPassengerBack(n, p, u, base);
  }

  /** Passenger directives written for every key read back as the whole settings map. */
  lemma AllPassengerBack(n: Node, p: map<String, Option<String>>, u: Option<String>, base: nat)
    requires forall j :: 0 <= j < |PassengerKeys| ==>
      Named(n.children, "passenger_" + PassengerKeys[j]) == Named(PassengerDir(p, u, PassengerKeys[j]), "passenger_" + PassengerKeys[j])
    requires KeptPassenger(p) && HomeUser(u) && base == |HomeBase(u)|
    ensures ExtractPassenger(n, PassengerKeys, 0, base) == Ok(p)
  {
    PassengerBack(n, p, u, PassengerKeys, 0, base);
    AmongAll(p, PassengerKeys);
  }

  lemma AmongAll(p: map<String, Option<String>>, keys: seq<String>)
    requires forall k :: k in p ==> k in keys
    ensures Among(p, keys, 0) == p
  {
    assert keys[0..] == keys;
  }

  /** The fastcgi location holds the address it was written with. */
  lemma CgiNodePass(mode: Option<String>, f: Option<String>)
    ensures Dir(CgiNode(mode, f), "fastcgi_pass") == Some([Leaf(f)])
  {
    NamedOnce(CgiNode(mode, f).children, 1, "fastcgi_pass");
  }

  /** The block's root is the server's, sliced like any root. */
  lemma TopRootBack(info: Info, u: Option<String>, f: Option<String>, base: nat)
    ensures ExtractField(Node(None, Head(info) + Body(info, u, f)), "root", base) == Ok(Some(Slice(info.root, base)))
  {
    BlockHead(info, u, f, "root");
    HeadFile(info, 0);
  }

  /** The block's nested locations read back, and its fastcgi location turns fastcgi "on". */
  lemma TopLocsBack(info: Info, u: Option<String>, f: Option<String>, base: nat)
    requires TopKept(info.config.loc) && HomeUser(u) && base == |HomeBase(u)|
    ensures var n := Node(None, Head(info) + Body(info, u, f));
      ExtractLocList(n, Named(n.children, "location"), 0, base, PassengerKeys)
        == Ok((info.config.loc.locations, true))
  {
    var n := Node(None, Head(info) + Body(info, u, f));
    var cs := info.config.loc.locations;
    BlockLocations(info, u, f);
    var ls := Named(n.children, "location");
    CgiNodePass(TopLoc(info).fastcgi, f);
    LocListBack(TopLoc(info), n, ls, 0, cs, u, f, base);
    assert cs[0..] == cs;
  }

  /**
   * The block's own settings read back: the root of the server (sliced, and dropped later), no
   * alias, the directives and passenger settings, the nested locations, and fastcgi "on".
   */
  lemma TopLocBack(info: Info, u: Option<String>, f: Option<String>, base: nat)
    requires TopKept(info.config.loc) && HomeUser(u) && base == |HomeBase(u)|
    ensures var l := info.config.loc;
      ExtractLoc(Node(None, Head(info) + Body(info, u, f)), base, PassengerKeys)
        == Ok(Loc(Some(Slice(info.root, base)), None, l.rewrite, l.tryFiles, l.ret, l.passenger,
          l.locations, Some("on"), None, None, None))
  {
    TopRootBack(info, u, f, base);
    TopFieldBack(info, u, f, base, "alias");
    TopFieldBack(info, u, f, base, "rewrite");
    TopFieldBack(info, u, f, base, "try_files");
    TopFieldBack(info, u, f, base, "return");
    TopPassengerBack(info, u, f, base);
    TopLocsBack(info, u, f, base);
  }

  /** Everything after the listen loop reads back. */
  lemma RestBack(info: Info, domain: String)
    requires Readable(info)
    ensures var acc := Listens(info.config.ssl != Some("enforce"), info.config.ssl != Some("off"), info.ip, info.ip6);
      Mask(acc) == SslMask(info.config.ssl) ==>
      ExtractRest(Node(None, Head(info) + Body(info, info.user, info.fcgi)), domain, PassengerKeys, true, acc)
        == Ok(ReadBack(info, domain))
  {
    var u := info.user;
    var f := info.fcgi;
    var n := Node(None, Head(info) + Body(info, u, f));
    FilesBack(info);
    BlockCgi(info, u, f);
    TopLocBack(info, u, f, |HomeBase(u)|);
    ErrorPagesBack(info);
  }

  /** The root, the logs and the certificate pair of the written block read back. */
  lemma FilesBack(info: Info)
    requires Readable(info)
    ensures var n := Node(None, Head(info) + Body(info, info.user, info.fcgi));
            && Dir(n, "root") == Some([Leaf(Some(info.root))])
            && FirstValue(n, "access_log") == Ok(info.accessLog)
            && FirstValue(n, "error_log") == Ok(info.errorLog)
            && FirstValue(n, "ssl_certificate") == Ok(info.certs.value.certificate)
            && FirstValue(n, "ssl_certificate_key") == Ok(info.certs.value.key)
  {
    FilesNamed(info);
  }

  /** Each of the five files of the written block is found once, under its own name. */
  lemma FilesNamed(info: Info)
    ensures var n := Node(None, Head(info) + Body(info, info.user, info.fcgi));
            && Named(n.children, "root") == [Leaf(Some(info.root))]
            && Named(n.children, "access_log") == [Leaf(info.accessLog)]
            && Named(n.children, "error_log") == [Leaf(info.errorLog)]
            && Named(n.children, "ssl_certificate") == [Leaf(CertsOf(info).certificate)]
            && Named(n.children, "ssl_certificate_key") == [Leaf(CertsOf(info).key)]
  {
    var u := info.user;
    var f := info.fcgi;
    var n := Node(None, Head(info) + Body(info, u, f));
    forall j | 0 <= j < 5
      ensures Named(n.children, FileDirs(info)[j].0) == [FileDirs(info)[j].1]
    {
      BlockHead(info, u, f, FileDirs(info)[j].0);
      HeadFile(info, j);
    }
    assert FileDirs(info)[0].0 == "root" && FileDirs(info)[1].0 == "access_log" && FileDirs(info)[2].0 == "error_log"
           && FileDirs(info)[3].0 == "ssl_certificate" && FileDirs(info)[4].0 == "ssl_certificate_key";
  }

  /** The error pages of the written block read back in order. */
  lemma ErrorPagesBack(info: Info)
    requires Readable(info)
    ensures var n := Node(None, Head(info) + Body(info, info.user, info.fcgi));
            (match Dir(n, "error_page") case None => [] case Some(l) => Values(l)) == info.config.errorPages
  {
    var u := info.user;
    var f := info.fcgi;
    var n := Node(None, Head(info) + Body(info, u, f));
    var pages := info.config.errorPages;
    BlockHead(info, u, f, "error_page");
    HeadErrorPages(info);
    NamedAll(ErrorPageDirs(pages), "error_page");
    if |pages| > 0 {
      assert Values(Named(n.children, "error_page")) == pages;
    }
  }

  /**
   * The round trip `set` relies on: the block `applyInfo` writes, with the server's user and
   * fastcgi address passed to every level, reads back as the record it was written from, up to
   * the normalisations `ReadBack` names.
   */
  lemma RoundTripFixed(info: Info, domain: String)
    requires Readable(info)
    ensures ApplyDirs(info, true).Ok?
    ensures ExtractInfoOf(Node(None, ApplyDirs(info, true).value), domain, PassengerKeys, true)
      == Ok(ReadBack(info, domain))
  {
    ApplyShape(info);
    var n := Node(None, Head(info) + Body(info, info.user, info.fcgi));
    BlockHead(info, info.user, info.fcgi, "listen");
    HeadListen(info);
    NamedAll(ListenDirs(info), "listen");
    ListenBack(info);
    RestBack(info, domain);
  }

  // ---------------------------------------------------------------------------------------------
  // As written: each level's own `user` and `fcgi`
  // ---------------------------------------------------------------------------------------------

  /** Settings with no directory under the home at any level. */
  predicate NoHomePaths(l: Loc)
    decreases l
  {
    l.root.None? && l.alias.None? && "document_root" !in l.passenger && "app_root" !in l.passenger
    && forall i :: 0 <= i < |l.locations| ==> NoHomePaths(l.locations[i])
  }

  lemma {:induction false} AddedForSame(keys: seq<String>, k: nat, a: String -> seq<(String, Node)>, b: String -> seq<(String, Node)>)
    requires k <= |keys| && forall j :: 0 <= j < k ==> a(keys[j]) == b(keys[j])
    ensures AddedFor(keys, k, a) == AddedFor(keys, k, b)
  {
    if k > 0 {
      AddedForSame(keys, k - 1, a, b);
    }
  }

  /** Without home paths, the user a record is written for makes no difference. */
  lemma {:induction false} ExpandUserFree(l: Loc, u1: Option<String>, u2: Option<String>, f: Option<String>)
    requires NoHomePaths(l)
    ensures Expand(l, u1, f, false) == Expand(l, u2, f, false)
    decreases l, 1
  {
    FieldDirsUserFree(l, u1, u2);
    PassengerDirsUserFree(l, u1, u2);
    ExpandLocsUserFree(l, l.locations, |l.locations|, u1, u2, f);
  }

  lemma FieldDirsUserFree(l: Loc, u1: Option<String>, u2: Option<String>)
    requires l.root.None? && l.alias.None?
    ensures FieldDirs(l, u1, LocationKeys, |LocationKeys|) == FieldDirs(l, u2, LocationKeys, |LocationKeys|)
  {
    AddedForSame(LocationKeys, |LocationKeys|, FieldAdder(l, u1), FieldAdder(l, u2));
  }

  lemma PassengerDirsUserFree(l: Loc, u1: Option<String>, u2: Option<String>)
    requires "document_root" !in l.passenger && "app_root" !in l.passenger
    ensures PassengerDirs(l.passenger, u1, PassengerKeys, |PassengerKeys|)
            == PassengerDirs(l.passenger, u2, PassengerKeys, |PassengerKeys|)
  {
    AddedForSame(PassengerKeys, |PassengerKeys|, PassengerAdder(l.passenger, u1), PassengerAdder(l.passenger, u2));
  }

  lemma {:induction false} ExpandLocsUserFree(c: Loc, cs: seq<Loc>, k: nat, u1: Option<String>, u2: Option<String>, f: Option<String>)
    requires c.locations == cs && k <= |cs| && forall i :: 0 <= i < |cs| ==> NoHomePaths(cs[i])
    ensures ExpandLocs(c, cs, k, u1, f, false) == ExpandLocs(c, cs, k, u2, f, false)
    decreases c, 0, k
  {
    if k > 0 {
      ExpandLocsUserFree(c, cs, k - 1, u1, u2, f);
      ExpandUserFree(cs[k - 1], u1, u2, f);
    }
  }

  /**
   * As written, a record without `user` and `fcgi` at any level is expanded as if the server
   * had neither: the home paths go under `/home/undefined` and `fastcgi_pass` gets no value.
   */
  lemma {:induction false} ExpandOwn(c: Loc, user: Option<String>, fcgi: Option<String>)
    requires c.user.None? && c.fcgi.None? && forall i :: 0 <= i < |c.locations| ==> NestedLoc(c.locations[i])
    ensures Expand(c, user, fcgi, true) == Expand(c, None, None, false)
    decreases c, 1
  {
    ExpandLocsOwn(c, c.locations, |c.locations|, user, fcgi);
  }

  lemma {:induction false} ExpandLocsOwn(c: Loc, cs: seq<Loc>, k: nat, user: Option<String>, fcgi: Option<String>)
    requires c.locations == cs && k <= |cs| && forall i :: 0 <= i < |cs| ==> NestedLoc(cs[i])
    ensures ExpandLocs(c, cs, k, user, fcgi, true) == ExpandLocs(c, cs, k, None, None, false)
    decreases c, 0, k
  {
    if k > 0 {
      ExpandLocsOwn(c, cs, k - 1, user, fcgi);
      ExpandOwn(cs[k - 1], user, fcgi);
    }
  }

  /**
   * `applyInfo` as written, on a record `extractInfo` could have produced (no `user` or `fcgi`
   * in the settings) and without home paths: the block reads back with no fastcgi address, so
   * a server that had one loses it on the first `set`.
   */
  lemma RoundTripAsWritten(info: Info, domain: String)
    requires Readable(info) && NoHomePaths(TopLoc(info))
    ensures ApplyDirs(info, false).Ok?
    ensures ExtractInfoOf(Node(None, ApplyDirs(info, false).value), domain, PassengerKeys, true)
      == Ok(ReadBack(info, domain).(fcgi := None))
  {
    var c := TopLoc(info);
    var lost := info.(fcgi := None);
    ExpandOwn(c, info.user, info.fcgi);
    ExpandUserFree(c, None, info.user, None);
    assert ApplyDirs(info, false) == ApplyDirs(lost, true);
    RoundTripFixed(lost, domain);
  }

  /** A server with a fastcgi address reads back differently through the two versions. */
  lemma AsWrittenLosesFcgi(info: Info, domain: String)
    requires Readable(info) && NoHomePaths(TopLoc(info)) && Truthy(info.fcgi)
    ensures ApplyDirs(info, false).Ok? && ApplyDirs(info, true).Ok?
    ensures ExtractInfoOf(Node(None, ApplyDirs(info, false).value), domain, PassengerKeys, true)
      != ExtractInfoOf(Node(None, ApplyDirs(info, true).value), domain, PassengerKeys, true)
  {
    RoundTripAsWritten(info, domain);
    RoundTripFixed(info, domain);
  }
}
