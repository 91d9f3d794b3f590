/**
 * The nginx server-block translator of `src/executor/nginx.js`: `extractInfo` flattens a parsed
 * server block into an info record (listen addresses, an SSL bitmask, root, logs, certificates,
 * the fastcgi address and a tree of location settings), and `applyInfo` rewrites the block from
 * such a record. The older copy of `extractInfo` in `src/nginx/index.js` is the same function
 * with a shorter list of passenger keys and no certificate fields.
 *
 * A directive tree is modelled as nginx-conf presents it: a node carries an optional `_value`
 * and its children in order; `node[name]` is the list of children of that name, absent when
 * there is none.
 */
module Nginx {
  import opened Base
  import opened Strings
  import opened Paths

  datatype Node = Node(value: Option<String>, children: seq<(String, Node)>)

  /** What a JavaScript `TypeError` (reading a property of `undefined`) ends the request with. */
  const TypeError: String := "TypeError"

  /** JavaScript truthiness of an optional string: present and non-empty. */
  predicate Truthy(v: Option<String>)
  {
    v.Some? && |v.value| > 0
  }

  /** A value as a template literal or `+` prints it: `undefined` or `null` when absent. */
  function JsText(v: Option<String>, absent: String): String
  {
    if v.Some? then v.value else absent
  }

  /** `s.slice(n)` for `n >= 0`. */
  function Slice(s: String, n: nat): String
  {
    if n >= |s| then "" else s[n..]
  }

  /** The children named `name`, in order. */
  function Named(cs: seq<(String, Node)>, name: String): (r: seq<Node>)
    ensures |r| <= |cs|
  {
    if |cs| == 0 then []
    else (if cs[0].0 == name then [cs[0].1] else []) + Named(cs[1..], name)
  }

  /** `node[name]`: the list of children called `name`, or `undefined` when there is none. */
  function Dir(n: Node, name: String): (r: Option<seq<Node>>)
    ensures r.Some? ==> |r.value| > 0
  {
    var l := Named(n.children, name);
    if |l| == 0 then None else Some(l)
  }

  /** Every child returned by `Named` is one of the node's children. */
  lemma {:induction false} NamedFrom(cs: seq<(String, Node)>, name: String, i: nat)
    requires i < |Named(cs, name)|
    ensures exists j :: 0 <= j < |cs| && cs[j] == (name, Named(cs, name)[i])
  {
    var head := if cs[0].0 == name then [cs[0].1] else [];
    if cs[0].0 == name && i == 0 {
      assert cs[0] == (name, Named(cs, name)[0]);
    } else {
      NamedFrom(cs[1..], name, i - |head|);
      var j :| 0 <= j < |cs[1..]| && cs[1..][j] == (name, Named(cs[1..], name)[i - |head|]);
      assert cs[j + 1] == (name, Named(cs, name)[i]);
    }
  }

  lemma {:induction false} NamedConcat(a: seq<(String, Node)>, b: seq<(String, Node)>, name: String)
    ensures Named(a + b, name) == Named(a, name) + Named(b, name)
  {
    if |a| > 0 {
      assert (a + b)[1..] == a[1..] + b;
      NamedConcat(a[1..], b, name);
    } else {
      assert a + b == b;
    }
  }

  /** `node[name][0]._value`: a `TypeError` when the list is absent. */
  function FirstValue(n: Node, name: String): Result<Option<String>>
  {
    match Dir(n, name)
    case None => Err(TypeError)
    case Some(l) => Ok(l[0].value)
  }

  // ---------------------------------------------------------------------------------------------
  // Settings records
  // ---------------------------------------------------------------------------------------------

  const LocationKeys: seq<String> := ["root", "alias", "rewrite", "try_files", "return"]

  /** The passenger settings `src/executor/nginx.js` reads and writes. */
  const PassengerKeys: seq<String> := [
    "enabled", "app_env", "app_start_command", "app_type",
    "startup_file", "ruby", "nodejs", "python",
    "meteor_app_settings", "friendly_error_pages",
    "document_root", "base_uri", "app_root", "sticky_sessions"]

  /** The passenger settings of the older copy in `src/nginx/index.js`: no `sticky_sessions`. */
  const OldPassengerKeys: seq<String> := PassengerKeys[..13]

  const SslNames: seq<String> := ["", "off", "enforce", "on"]

  /** Passenger settings that name a directory under the user's home. */
  predicate IsHomePath(key: String)
  {
    key == "document_root" || key == "app_root"
  }

  /**
   * The settings of one location (or of the server block itself): the five location
   * directives, passenger settings, nested locations, the fastcgi mode and the location's
   * match. `user` and `fcgi` are what a client may put into the record; the extractor never
   * sets them. An empty `passenger` or `locations` stands for an absent one: the extractor never
   * produces an empty one, and `expandLocation` adds nothing for either.
   */
  datatype Loc = Loc(
    root: Option<String>, alias: Option<String>, rewrite: Option<String>,
    tryFiles: Option<String>, ret: Option<String>,
    passenger: map<String, Option<String>>,
    locations: seq<Loc>,
    fastcgi: Option<String>,
    pattern: Option<String>,
    user: Option<String>,
    fcgi: Option<String>)

  /** The field of a location named by one of `LocationKeys`. */
  function LocField(c: Loc, key: String): Option<String>
  {
    if key == "root" then c.root
    else if key == "alias" then c.alias
    else if key == "rewrite" then c.rewrite
    else if key == "try_files" then c.tryFiles
    else if key == "return" then c.ret
    else None
  }

  /** The server's `config`: its location settings, the SSL mode and the error pages. */
  datatype Config = Config(loc: Loc, ssl: Option<String>, errorPages: seq<Option<String>>)

  /** The certificate pair of the executor's record. */
  datatype Certs = Certs(certificate: Option<String>, key: Option<String>)

  datatype Info = Info(
    ssl: nat, dom: String, ip: Option<String>, ip6: Option<String>,
    root: String, user: Option<String>, fcgi: Option<String>,
    accessLog: Option<String>, errorLog: Option<String>,
    certs: Option<Certs>,
    config: Config)

  // ---------------------------------------------------------------------------------------------
  // findServ
  // ---------------------------------------------------------------------------------------------

  /** Whether server `x` lists `name` among the space-separated words of its `server_name`. */
  function ServesName(x: Node, name: String): Result<bool>
  {
    var v :- FirstValue(x, "server_name");
    if v.None? then Err(TypeError) else Ok(name in Split(v.value, ' '))
  }

  /**
   * `findServ`: the index of the first server whose `server_name` has `name` as a word, or
   * `None` (`undefined`); a server before it without a `server_name` value is a `TypeError`.
   */
  function FindServ(servers: seq<Node>, name: String): (r: Result<Option<nat>>)
    ensures r.Ok? && r.value.Some? ==>
      r.value.value < |servers| && ServesName(servers[r.value.value], name) == Ok(true)
      && forall j :: 0 <= j < r.value.value ==> ServesName(servers[j], name) == Ok(false)
    ensures r.Ok? && r.value.None? ==>
      forall j :: 0 <= j < |servers| ==> ServesName(servers[j], name) == Ok(false)
    ensures r.Err? ==>
      exists j :: 0 <= j < |servers| && ServesName(servers[j], name).Err? && NoneBefore(servers, name, j)
  {
    FindServFrom(servers, name, 0)
  }

  predicate NoneBefore(servers: seq<Node>, name: String, j: nat)
    requires j <= |servers|
  {
    forall k :: 0 <= k < j ==> ServesName(servers[k], name) == Ok(false)
  }

  function FindServFrom(servers: seq<Node>, name: String, i: nat): (r: Result<Option<nat>>)
    requires i <= |servers|
    decreases |servers| - i
    ensures r.Ok? && r.value.Some? ==>
      i <= r.value.value < |servers| && ServesName(servers[r.value.value], name) == Ok(true)
      && forall j :: i <= j < r.value.value ==> ServesName(servers[j], name) == Ok(false)
    ensures r.Ok? && r.value.None? ==>
      forall j :: i <= j < |servers| ==> ServesName(servers[j], name) == Ok(false)
    ensures r.Err? ==>
      exists j :: i <= j < |servers| && ServesName(servers[j], name).Err?
        && forall k :: i <= k < j ==> ServesName(servers[k], name) == Ok(false)
  {
    if i == |servers| then Ok(None)
    else
      var here := ServesName(servers[i], name);
      if here.Err? then Err(TypeError)
      else if here.value then Ok(Some(i))
      else FindServFrom(servers, name, i + 1)
  }

  // ---------------------------------------------------------------------------------------------
  // findFastCgi
  // ---------------------------------------------------------------------------------------------

  /**
   * `findFastCgi`: the value of the node's own `fastcgi_pass` if it has one, else the first
   * truthy result over its `location` children, depth first, else `null`.
   */
  function FindFastCgi(n: Node): Result<Option<String>>
    decreases n, 1
  {
    if Dir(n, "fastcgi_pass").Some? then FirstValue(n, "fastcgi_pass")
    else FindFastCgiFrom(n, Named(n.children, "location"), 0)
  }

  function FindFastCgiFrom(n: Node, ls: seq<Node>, i: nat): Result<Option<String>>
    requires ls == Named(n.children, "location")
    decreases n, 0, |ls| - i
  {
    if i >= |ls| then Ok(None)
    else
      NamedFrom(n.children, "location", i);
      var r :- FindFastCgi(ls[i]);
      if Truthy(r) then Ok(r) else FindFastCgiFrom(n, ls, i + 1)
  }

  // ---------------------------------------------------------------------------------------------
  // extractLocations
  // ---------------------------------------------------------------------------------------------

  /** `r[key]` for one of `LocationKeys`: root and alias lose the first `base` characters. */
  function ExtractField(n: Node, key: String, base: nat): Result<Option<String>>
  {
    match Dir(n, key)
    case None => Ok(None)
    case Some(l) =>
      var v := l[0].value;
      if key == "root" || key == "alias" then
        if v.None? then Err(TypeError) else Ok(Some(Slice(v.value, base)))
      else Ok(v)
  }

  /** `passenger_<key>` as read: absent, or its first value (home paths lose the base). */
  function PassengerEntry(n: Node, key: String, base: nat): Result<Option<Option<String>>>
  {
    match Dir(n, "passenger_" + key)
    case None => Ok(None)
    case Some(l) =>
      var v := l[0].value;
      if !IsHomePath(key) then Ok(Some(v))
      else if v.None? then Err(TypeError)
      else Ok(Some(Some(Slice(v.value, base))))
  }

  /** `r.passenger` built from the `passenger_<key>` directives, for `keys[i..]`. */
  function ExtractPassenger(n: Node, keys: seq<String>, i: nat, base: nat): Result<map<String, Option<String>>>
    decreases |keys| - i
  {
    if i >= |keys| then Ok(map[])
    else
      var rest :- ExtractPassenger(n, keys, i + 1, base);
      var e :- PassengerEntry(n, keys[i], base);
      if e.None? then Ok(rest) else Ok(rest[keys[i] := e.value])
  }

  /**
   * `extractLocations(node, basepath)` with `base == basepath.length`: a child location holding
   * `fastcgi_pass` turns fastcgi "on" instead of being listed, the others are extracted in turn.
   */
  function ExtractLoc(n: Node, base: nat, keys: seq<String>): Result<Loc>
    decreases n, 1
  {
    var listed :- ExtractLocList(n, Named(n.children, "location"), 0, base, keys);
    var (locs, cgi) := listed;
    var root :- ExtractField(n, "root", base);
    var alias :- ExtractField(n, "alias", base);
    var rewrite :- ExtractField(n, "rewrite", base);
    var tryFiles :- ExtractField(n, "try_files", base);
    var ret :- ExtractField(n, "return", base);
    var passenger :- ExtractPassenger(n, keys, 0, base);
    Ok(Loc(root, alias, rewrite, tryFiles, ret,
      passenger,
      locs,
      if cgi then Some("on") else None,
      if Truthy(n.value) then n.value else None,
      None, None))
  }

  /** The location children from `i` on: the extracted ones, and whether one held `fastcgi_pass`. */
  function ExtractLocList(n: Node, ls: seq<Node>, i: nat, base: nat, keys: seq<String>): Result<(seq<Loc>, bool)>
    requires ls == Named(n.children, "location")
    decreases n, 0, |ls| - i
  {
    if i >= |ls| then Ok(([], false))
    else
      NamedFrom(n.children, "location", i);
      if Dir(ls[i], "fastcgi_pass").Some? then
        var rest :- ExtractLocList(n, ls, i + 1, base, keys);
        Ok((rest.0, true))
      else
        var here :- ExtractLoc(ls[i], base, keys);
        var rest :- ExtractLocList(n, ls, i + 1, base, keys);
        Ok(([here] + rest.0, rest.1))
  }

  // ---------------------------------------------------------------------------------------------
  // extractInfo
  // ---------------------------------------------------------------------------------------------

  /** What the `listen` loop has gathered: the HTTP and HTTPS bits and the last addresses. */
  datatype Listens = Listens(plain: bool, secure: bool, ip: Option<String>, ip6: Option<String>)

  /** A listen directive's address: its first word, without a trailing ":443". */
  function ListenAddress(v: String): String
  {
    var a := Split(v, ' ')[0];
    if EndsWith(a, ":443") then a[..|a| - 4] else a
  }

  /** One turn of the `listen` loop; a listen without a value is a `TypeError`. */
  function ListenStep(acc: Listens, v: Option<String>): Result<Listens>
  {
    if v.None? then Err(TypeError)
    else
      var ip := ListenAddress(v.value);
      var acc' := if StartsWith(ip, "[") then acc.(ip6 := Some(ip)) else acc.(ip := Some(ip));
      if Contains(v.value, "ssl") then Ok(acc'.(secure := true)) else Ok(acc'.(plain := true))
  }

  /** The `listen` loop over `ls`, left to right. */
  function ScanListens(ls: seq<Node>): Result<Listens>
  {
    if |ls| == 0 then Ok(Listens(false, false, None, None))
    else
      var acc :- ScanListens(ls[..|ls| - 1]);
      ListenStep(acc, ls[|ls| - 1].value)
  }

  /** `data.ssl`: 1 for a plain listen, 2 for an SSL one. */
  function Mask(acc: Listens): (m: nat)
    ensures m < 4
  {
    (if acc.plain then 1 else 0) + (if acc.secure then 2 else 0)
  }

  /** `mask | bit` for a two-bit mask and a single bit. */
  function OrBit(mask: nat, bit: nat): nat
    requires mask < 4 && (bit == 1 || bit == 2)
  {
    if (mask / bit) % 2 == 1 then mask else mask + bit
  }

  /** `data.root.split('/')[2]`. */
  function UserOf(root: String): Option<String>
  {
    var parts := Split(root, '/');
    if |parts| > 2 then Some(parts[2]) else None
  }

  /** The base path the extractor strips: `/home/${data.user}/`. */
  function HomeBase(user: Option<String>): String
  {
    "/home/" + JsText(user, "undefined") + "/"
  }

  /** `node.error_page` values, in order. */
  function Values(ls: seq<Node>): (r: seq<Option<String>>)
    ensures |r| == |ls| && forall i :: 0 <= i < |ls| ==> r[i] == ls[i].value
  {
    if |ls| == 0 then [] else [ls[0].value] + Values(ls[1..])
  }

  /** Everything `extractInfo` does after the `listen` loop. */
  function ExtractRest(n: Node, domain: String, keys: seq<String>, withCerts: bool, acc: Listens): Result<Info>
  {
    var root :- (match Dir(n, "root")
      case None => Ok("")
      case Some(l) => if l[0].value.None? then Err(TypeError) else Ok(l[0].value.value));
    var user := UserOf(root);
    var accessLog :- FirstValue(n, "access_log");
    var errorLog :- FirstValue(n, "error_log");
    var certs :- (if withCerts then
        var c :- FirstValue(n, "ssl_certificate");
        var k :- FirstValue(n, "ssl_certificate_key");
        Ok(Some(Certs(c, k)))
      else Ok(None));
    var fcgi :- FindFastCgi(n);
    var loc :- ExtractLoc(n, |HomeBase(user)|, keys);
    var config := Config(
      loc.(pattern := None, root := None, alias := None,
           fastcgi := if Truthy(loc.fastcgi) then loc.fastcgi else Some("off")),
      Some(SslNames[Mask(acc)]),
      match Dir(n, "error_page") case None => [] case Some(l) => Values(l));
    Ok(Info(Mask(acc), domain, acc.ip, acc.ip6, root, user, fcgi, accessLog, errorLog, certs, config))
  }

  /**
   * `extractInfo(node, domain)`: `keys` is the list of passenger settings read, and `withCerts`
   * whether the certificate directives are read (the executor's copy) or not (the older copy).
   */
  function ExtractInfoOf(n: Node, domain: String, keys: seq<String>, withCerts: bool): Result<Info>
  {
    match Dir(n, "listen")
    case None => Err(TypeError)
    case Some(ls) =>
      var acc :- ScanListens(ls);
      ExtractRest(n, domain, keys, withCerts, acc)
  }

  /** `extractInfo`, with its `listen` loop ORing bits into the mask. */
  method ExtractInfo(n: Node, domain: String, keys: seq<String>, withCerts: bool) returns (r: Result<Info>)
    ensures r == ExtractInfoOf(n, domain, keys, withCerts)
  {
    var found := Dir(n, "listen");
    if found.None? {
      return Err(TypeError);
    }
    var ls := found.value;
    var mask := 0;
    var ip: Option<String> := None;
    var ip6: Option<String> := None;
    var acc := Listens(false, false, None, None);
    for i := 0 to |ls|
      invariant ScanListens(ls[..i]) == Ok(acc)
      invariant mask == Mask(acc) && ip == acc.ip && ip6 == acc.ip6
    {
      var v := ls[i].value;
      if v.None? {
        ScanStopsAt(ls, i);
        return Err(TypeError);
      }
      var address := ListenAddress(v.value);
      if StartsWith(address, "[") {
        ip6 := Some(address);
      } else {
        ip := Some(address);
      }
      var bit := if Contains(v.value, "ssl") then 2 else 1;
      mask := OrBit(mask, bit);
      ScanStep(ls, i, acc);
      acc := ListenStep(acc, v).value;
    }
    assert ls[..|ls|] == ls;
    r := ExtractRest(n, domain, keys, withCerts, acc);
  }

  /** Once one listen has no value, the whole loop is a `TypeError`. */
  lemma {:induction false} ScanStopsAt(ls: seq<Node>, i: nat)
    requires i < |ls| && ScanListens(ls[..i]).Ok? && ls[i].value.None?
    ensures ScanListens(ls) == Err(TypeError)
  {
    if |ls| == i + 1 {
      FrontIs(ls, i);
      ScanNone(ls);
    } else {
      var front := FrontKeeps(ls, i);
      ScanStopsAt(front, i);
      ScanErr(ls);
    }
  }

  lemma FrontIs(ls: seq<Node>, i: nat)
    requires i + 1 == |ls|
    ensures ls[..|ls| - 1] == ls[..i]
  {
  }

  lemma FrontKeeps(ls: seq<Node>, i: nat) returns (front: seq<Node>)
    requires i + 1 < |ls|
    ensures front == ls[..|ls| - 1] && i < |front| && front[..i] == ls[..i] && front[i] == ls[i]
  {
    front := ls[..|ls| - 1];
  }

  lemma ScanNone(ls: seq<Node>)
    requires |ls| > 0 && ScanListens(ls[..|ls| - 1]).Ok? && ls[|ls| - 1].value.None?
    ensures ScanListens(ls) == Err(TypeError)
  {
  }

  lemma ScanErr(ls: seq<Node>)
    requires |ls| > 0 && ScanListens(ls[..|ls| - 1]) == Err(TypeError)
    ensures ScanListens(ls) == Err(TypeError)
  {
  }

  /** One more turn of the loop: the state after `i + 1` listens, and its mask as an OR. */
  lemma ScanStep(ls: seq<Node>, i: nat, acc: Listens)
    requires i < |ls| && ScanListens(ls[..i]) == Ok(acc) && ls[i].value.Some?
    ensures ScanListens(ls[..i + 1]) == ListenStep(acc, ls[i].value)
    ensures var v := ls[i].value.value;
      Mask(ListenStep(acc, ls[i].value).value) == OrBit(Mask(acc), if Contains(v, "ssl") then 2 else 1)
  {
    assert ls[..i + 1][..i] == ls[..i];
  }

  // ---------------------------------------------------------------------------------------------
  // applyInfo
  // ---------------------------------------------------------------------------------------------

  /** The node `_add(name, value)` creates: the value and no children of its own. */
  function Leaf(v: Option<String>): Node
  {
    Node(v, [])
  }

  /** `path.join(`/home/${user}`, v)`. */
  function UnderHome(user: Option<String>, v: String): String
  {
    PathJoin("/home/" + JsText(user, "undefined"), v)
  }

  /** The directive `expandLocation` adds for location key `key` when the value is truthy. */
  function FieldDir(c: Loc, user: Option<String>, key: String): seq<(String, Node)>
  {
    var v := LocField(c, key);
    if !Truthy(v) then []
    else if key == "root" || key == "alias" then [(key, Leaf(Some(UnderHome(user, v.value))))]
    else [(key, Leaf(v))]
  }

  /** What `add` gives for each of the first `k` keys, in order. */
  function AddedFor(keys: seq<String>, k: nat, add: String -> seq<(String, Node)>): seq<(String, Node)>
    requires k <= |keys|
  {
    if k == 0 then [] else AddedFor(keys, k - 1, add) + add(keys[k - 1])
  }

  /** The directives of the first `k` location keys, in order. */
  function FieldDirs(c: Loc, user: Option<String>, keys: seq<String>, k: nat): seq<(String, Node)>
    requires k <= |keys|
  {
    AddedFor(keys, k, FieldAdder(c, user))
  }

  function FieldAdder(c: Loc, user: Option<String>): String -> seq<(String, Node)>
  {
    key => FieldDir(c, user, key)
  }

  /** `info.passenger[key]`, `undefined` when the key is missing. */
  function PassengerValue(p: map<String, Option<String>>, key: String): Option<String>
  {
    if key in p then p[key] else None
  }

  /** The `passenger_<key>` directive `expandLocation` adds when the setting is truthy. */
  function PassengerDir(p: map<String, Option<String>>, user: Option<String>, key: String): seq<(String, Node)>
  {
    var v := PassengerValue(p, key);
    if !Truthy(v) then []
    else if IsHomePath(key) then [("passenger_" + key, Leaf(Some(UnderHome(user, v.value))))]
    else [("passenger_" + key, Leaf(v))]
  }

  /** The passenger directives of the first `k` of `keys`, in order. */
  function PassengerDirs(p: map<String, Option<String>>, user: Option<String>, keys: seq<String>, k: nat): seq<(String, Node)>
    requires k <= |keys|
  {
    AddedFor(keys, k, PassengerAdder(p, user))
  }

  function PassengerAdder(p: map<String, Option<String>>, user: Option<String>): String -> seq<(String, Node)>
  {
    key => PassengerDir(p, user, key)
  }

  const PhpMatch: String := "~ \\.php(/|$)"
  const DisabledPhpMatch: String := "= .actuallydisabledphpexecution"

  /**
   * The `switch (info.fastcgi)` of `expandLocation`, given the location directives added
   * before it: "on" and "off" add a location of their own; "cached" and "wpcached" add to the
   * last nested location added by the loop before (`var n` is function-scoped), a `TypeError`
   * when there is none; any other value adds nothing.
   */
  function FastCgiDirs(mode: Option<String>, fcgi: Option<String>, locs: seq<(String, Node)>): Result<seq<(String, Node)>>
  {
    if !Truthy(mode) then Ok(locs)
    else if mode.value == "on" then
      Ok(locs + [("location", Node(Some(PhpMatch),
        [("try_files", Leaf(Some("$uri =404"))), ("fastcgi_pass", Leaf(fcgi))]))])
    else if mode.value == "off" then
      Ok(locs + [("location", Node(Some(DisabledPhpMatch),
        [("return", Leaf(Some("404"))), ("fastcgi_pass", Leaf(fcgi))]))])
    else if mode.value == "cached" || mode.value == "wpcached" then
      if |locs| == 0 then Err(TypeError)
      else
        var last := locs[|locs| - 1].1;
        var cached := last.(children := last.children
          + [("try_files", Leaf(Some("$uri =404"))), ("fastcgi_pass", Leaf(fcgi)),
             ("fastcgi_cache", Leaf(Some("phpcache")))]);
        Ok(locs[..|locs| - 1] + [("location", cached)])
    else Ok(locs)
  }

  /**
   * The directives `expandLocation(node, c)` adds to `node`. As written (`own`), each level
   * reads `user` and `fcgi` from its own settings record; otherwise the server's `user` and
   * `fcgi` are used at every level.
   */
  function Expand(c: Loc, user: Option<String>, fcgi: Option<String>, own: bool): Result<seq<(String, Node)>>
    decreases c, 1
  {
    var u := if own then c.user else user;
    var f := if own then c.fcgi else fcgi;
    var locs :- ExpandLocs(c, c.locations, |c.locations|, user, fcgi, own);
    var cgi :- FastCgiDirs(c.fastcgi, f, locs);
    Ok(FieldDirs(c, u, LocationKeys, |LocationKeys|) + PassengerDirs(c.passenger, u, PassengerKeys, |PassengerKeys|) + cgi)
  }

  /** The nested location that `cs[k]` adds, if its match is truthy. */
  function ExpandOne(c: Loc, cs: seq<Loc>, k: nat, user: Option<String>, fcgi: Option<String>, own: bool): Result<seq<(String, Node)>>
    requires c.locations == cs && k < |cs|
    decreases c, 0, 0
  {
    if !Truthy(cs[k].pattern) then Ok([])
    else
      var d :- Expand(cs[k], user, fcgi, own);
      Ok([("location", Node(cs[k].pattern, d))])
  }

  /** The nested locations the first `k` entries of `cs` add. */
  function ExpandLocs(c: Loc, cs: seq<Loc>, k: nat, user: Option<String>, fcgi: Option<String>, own: bool): Result<seq<(String, Node)>>
    requires c.locations == cs && k <= |cs|
    decreases c, 0, k + 1
  {
    if k == 0 then Ok([])
    else
      var front :- ExpandLocs(c, cs, k - 1, user, fcgi, own);
      var here :- ExpandOne(c, cs, k - 1, user, fcgi, own);
      Ok(front + here)
  }

  /** Once a nested location fails, the whole list fails. */
  lemma {:induction false} ExpandLocsStops(c: Loc, cs: seq<Loc>, i: nat, k: nat, user: Option<String>, fcgi: Option<String>, own: bool)
    requires c.locations == cs && i <= k <= |cs|
    requires ExpandLocs(c, cs, i, user, fcgi, own).Err?
    ensures ExpandLocs(c, cs, k, user, fcgi, own) == ExpandLocs(c, cs, i, user, fcgi, own)
  {
    if k > i {
      ExpandLocsStops(c, cs, i, k - 1, user, fcgi, own);
    }
  }

  lemma ExpandLocsStep(c: Loc, cs: seq<Loc>, k: nat, user: Option<String>, fcgi: Option<String>, own: bool)
    requires c.locations == cs && k < |cs|
    requires ExpandLocs(c, cs, k, user, fcgi, own).Ok? && ExpandOne(c, cs, k, user, fcgi, own).Ok?
    ensures ExpandLocs(c, cs, k + 1, user, fcgi, own)
      == Ok(ExpandLocs(c, cs, k, user, fcgi, own).value + ExpandOne(c, cs, k, user, fcgi, own).value)
  {
  }

  /** `expandLocation(node, c)`; it returns the directives it adds. */
  method ExpandLocation(c: Loc, user: Option<String>, fcgi: Option<String>, own: bool) returns (r: Result<seq<(String, Node)>>)
    ensures r == Expand(c, user, fcgi, own)
    decreases c, 2
  {
    var u := if own then c.user else user;
    var f := if own then c.fcgi else fcgi;
    var fields := AddFields(c, u, LocationKeys);
    var pass := AddPassenger(c.passenger, u, PassengerKeys);
    var locs := AddLocations(c, c.locations, user, fcgi, own);
    if locs.Err? {
      return Err(locs.error);
    }
    var cgi := FastCgiDirs(c.fastcgi, f, locs.value);
    if cgi.Err? {
      return Err(cgi.error);
    }
    r := Ok(fields + pass + cgi.value);
  }

  /** The loop over `locationKeys`. */
  method AddFields(c: Loc, u: Option<String>, keys: seq<String>) returns (dirs: seq<(String, Node)>)
    ensures dirs == FieldDirs(c, u, keys, |keys|)
  {
    dirs := [];
    for i := 0 to |keys|
      invariant dirs == FieldDirs(c, u, keys, i)
    {
      dirs := dirs + FieldDir(c, u, keys[i]);
    }
  }

  /** The loop over `passengerKeys`. */
  method AddPassenger(p: map<String, Option<String>>, u: Option<String>, keys: seq<String>) returns (dirs: seq<(String, Node)>)
    ensures dirs == PassengerDirs(p, u, keys, |keys|)
  {
    dirs := [];
    for i := 0 to |keys|
      invariant dirs == PassengerDirs(p, u, keys, i)
    {
      dirs := dirs + PassengerDir(p, u, keys[i]);
    }
  }

  /** The loop over `info.locations`, expanding each location with a truthy match. */
  method AddLocations(c: Loc, cs: seq<Loc>, user: Option<String>, fcgi: Option<String>, own: bool) returns (r: Result<seq<(String, Node)>>)
    requires c.locations == cs
    ensures r == ExpandLocs(c, cs, |cs|, user, fcgi, own)
    decreases c, 1
  {
    var locs: seq<(String, Node)> := [];
    for k := 0 to |cs|
      invariant ExpandLocs(c, cs, k, user, fcgi, own) == Ok(locs)
    {
      var here: seq<(String, Node)> := [];
      if Truthy(cs[k].pattern) {
        var d := ExpandLocation(cs[k], user, fcgi, own);
        if d.Err? {
          ExpandLocsStops(c, cs, k + 1, |cs|, user, fcgi, own);
          return Err(d.error);
        }
        here := [("location", Node(cs[k].pattern, d.value))];
      }
      assert ExpandOne(c, cs, k, user, fcgi, own) == Ok(here);
      ExpandLocsStep(c, cs, k, user, fcgi, own);
      locs := locs + here;
    }
    r := Ok(locs);
  }

  /** The certificate pair `applyInfo` writes; a record without one writes `undefined` values. */
  function CertsOf(info: Info): Certs
  {
    if info.certs.Some? then info.certs.value else Certs(None, None)
  }

  /** The listen directives for the SSL mode: plain unless "enforce", `:443 ssl` unless "off". */
  function ListenDirs(info: Info): seq<(String, Node)>
  {
    var ssl := info.config.ssl;
    (if ssl != Some("enforce") then [("listen", Leaf(info.ip)), ("listen", Leaf(info.ip6))] else [])
    + (if ssl != Some("off") then
        [("listen", Leaf(Some(JsText(info.ip, "null") + ":443 ssl http2"))),
         ("listen", Leaf(Some(JsText(info.ip6, "null") + ":443 ssl http2")))]
      else [])
  }

  /** The root, log and certificate directives. */
  function FileDirs(info: Info): seq<(String, Node)>
  {
    [("root", Leaf(Some(info.root))), ("access_log", Leaf(info.accessLog)),
     ("error_log", Leaf(info.errorLog)),
     ("ssl_certificate", Leaf(CertsOf(info).certificate)),
     ("ssl_certificate_key", Leaf(CertsOf(info).key))]
  }

  function ErrorPageDirs(pages: seq<Option<String>>): (r: seq<(String, Node)>)
    ensures |r| == |pages| && forall i :: 0 <= i < |pages| ==> r[i] == ("error_page", Leaf(pages[i]))
  {
    seq(|pages|, i requires 0 <= i < |pages| => ("error_page", Leaf(pages[i])))
  }

  /** The server's own settings as `applyInfo` expands them: fastcgi defaults to "off", no root or alias. */
  function TopLoc(info: Info): Loc
  {
    var l := info.config.loc;
    l.(fastcgi := if Truthy(l.fastcgi) then l.fastcgi else Some("off"), root := None, alias := None)
  }

  /**
   * The directives `applyInfo(node, info)` leaves in the emptied node. As written (`fixed`
   * false) the settings records' own `user` and `fcgi` are used; `fixed` uses the server's.
   */
  function ApplyDirs(info: Info, fixed: bool): Result<seq<(String, Node)>>
  {
    var rest :- Expand(TopLoc(info), info.user, info.fcgi, !fixed);
    Ok([("server_name", Leaf(Some(info.dom)))] + ListenDirs(info) + FileDirs(info)
      + ErrorPageDirs(info.config.errorPages) + rest)
  }

  /** The directives `applyInfo` adds: the fixed head, then what the top location expands to. */
  lemma ApplyDirsSplit(info: Info, fixed: bool, head: seq<(String, Node)>)
    requires head == [] + [("server_name", Leaf(Some(info.dom)))] + ListenDirs(info) + FileDirs(info)
                     + ErrorPageDirs(info.config.errorPages)
    ensures var rest := Expand(TopLoc(info), info.user, info.fcgi, !fixed);
            (ApplyDirs(info, fixed).Ok? <==> rest.Ok?)
            && (rest.Ok? ==> ApplyDirs(info, fixed).value == head + rest.value)
  {
    assert [] + [("server_name", Leaf(Some(info.dom)))] == [("server_name", Leaf(Some(info.dom)))];
  }

  /** The server block `applyInfo` rewrites in place. */
  class ServerBlock {
    var value: Option<String>
    var children: seq<(String, Node)>

    constructor(n: Node)
      ensures value == n.value && children == n.children
    {
      value := n.value;
      children := n.children;
    }

    function State(): Node
      reads this
    {
      Node(value, children)
    }

    /** `node._add(name, child)`. */
    method Add(name: String, child: Node)
      modifies this
      ensures value == old(value) && children == old(children) + [(name, child)]
    {
      children := children + [(name, child)];
    }

    /**
     * `applyInfo(node, info)`: every property is deleted, then the directives are added in
     * order. On a `TypeError` the partly rebuilt block is left as it is.
     */
    method ApplyInfo(info: Info, fixed: bool) returns (r: Result<()>)
      modifies this
      ensures r.Ok? <==> ApplyDirs(info, fixed).Ok?
      ensures r.Ok? ==> State() == Node(None, ApplyDirs(info, fixed).value)
    {
      value := None;
      children := [];
      AddHeader(info);
      AddErrorPages(info.config.errorPages);
      ApplyDirsSplit(info, fixed, children);
      var rest := ExpandLocation(TopLoc(info), info.user, info.fcgi, !fixed);
      if rest.Err? {
        return Err(rest.error);
      }
      children := children + rest.value;
      r := Ok(());
    }

    /** The `server_name`, `listen`, root, log and certificate directives, in order. */
    method AddHeader(info: Info)
      modifies this
      ensures value == old(value) && children == old(children) + [("server_name", Leaf(Some(info.dom)))] + ListenDirs(info) + FileDirs(info)
    {
      children := children + [("server_name", Leaf(Some(info.dom)))];
      var ssl := info.config.ssl;
      if ssl != Some("enforce") {
        children := children + [("listen", Leaf(info.ip)), ("listen", Leaf(info.ip6))];
      }
      if ssl != Some("off") {
        children := children + [("listen", Leaf(Some(JsText(info.ip, "null") + ":443 ssl http2"))),
          ("listen", Leaf(Some(JsText(info.ip6, "null") + ":443 ssl http2")))];
      }
      children := children + FileDirs(info);
    }

    /** The loop adding one `error_page` per entry. */
    method AddErrorPages(pages: seq<Option<String>>)
      modifies this
      ensures value == old(value) && children == old(children) + ErrorPageDirs(pages)
    {
      for i := 0 to |pages|
        invariant value == old(value) && children == old(children) + ErrorPageDirs(pages[..i])
      {
        assert ErrorPageDirs(pages[..i + 1]) == ErrorPageDirs(pages[..i]) + [("error_page", Leaf(pages[i]))];
        Add("error_page", Leaf(pages[i]));
      }
      assert pages[..|pages|] == pages;
    }
  }
}
