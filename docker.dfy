/**
 * The Docker executor (src/executor/docker.js): the rootless-docker switch, the random private
 * address given to a site, and `rewriteServices`, which rewrites every port entry of a compose
 * file in place so that it publishes on the site's address and points the site's "/" location at
 * one of the published ports.
 *
 * `Math.random` is a parameter (`draw`) or a nondeterministic choice; nginx and the compose
 * file are values passed in and out.
 */
module Docker {
  import opened Base
  import opened Strings

  // ---------------------------------------------------------------------------------------------
  // Enable and disable (docker.js:24-58)
  // ---------------------------------------------------------------------------------------------

  const IdRange: String := "100000-165535"

  /** The commands run as root, and the message returned. */
  datatype Toggle = Toggle(commands: seq<seq<String>>, message: String)

  /** Enabling gives the user sub-ids and lingering; a lingering user is left alone. */
  function EnableDocker(lingering: bool, user: String): (r: Toggle)
    ensures lingering <==> r.message == "Done unchanged"
    ensures lingering ==> r.commands == []
    ensures !lingering ==> r.message == "Updated for docker" && |r.commands| == 2
                           && r.commands[1] == ["root", "loginctl", "enable-linger", user]
  {
    if lingering then Toggle([], "Done unchanged")
    else Toggle([["root", "usermod", "--add-subuids", IdRange, "--add-subgids", IdRange, user],
                 ["root", "loginctl", "enable-linger", user]], "Updated for docker")
  }

  /** Disabling takes the sub-ids and lingering back; a user not lingering is left alone. */
  function DisableDocker(lingering: bool, user: String): (r: Toggle)
    ensures !lingering <==> r.message == "Done unchanged"
    ensures !lingering ==> r.commands == []
    ensures lingering ==> r.message == "Updated for docker" && |r.commands| == 2
                          && r.commands[1] == ["root", "loginctl", "disable-linger", user]
  {
    if !lingering then Toggle([], "Done unchanged")
    else Toggle([["root", "usermod", "--del-subuids", IdRange, "--del-subgids", IdRange, user],
                 ["root", "loginctl", "disable-linger", user]], "Updated for docker")
  }

  /** The word of an enabling command that its disabling counterpart replaces. */
  function Undo(word: String): String
  {
    match word
    case "--add-subuids" => "--del-subuids"
    case "--add-subgids" => "--del-subgids"
    case "enable-linger" => "disable-linger"
    case _ => word
  }

  /** Disabling runs exactly the enabling commands with each grant turned into its revocation. */
  lemma DisableMirrorsEnable(user: String)
    requires user !in {"--add-subuids", "--add-subgids", "enable-linger"}
    ensures DisableDocker(true, user).commands
            == MapSeq(EnableDocker(false, user).commands, (c: seq<String>) => MapSeq(c, Undo))
  {
    var e := EnableDocker(false, user).commands;
    assert MapSeq(e[0], Undo) == DisableDocker(true, user).commands[0];
    assert MapSeq(e[1], Undo) == DisableDocker(true, user).commands[1];
  }

  // ---------------------------------------------------------------------------------------------
  // The site's address (docker.js:59-68)
  // ---------------------------------------------------------------------------------------------

  /** `10.a.b.c`. */
  function Ipv4(a: nat, b: nat, c: nat): (r: String)
    ensures StartsWith(r, "10.")
  {
    "10." + NatToString(a) + "." + NatToString(b) + "." + NatToString(c)
  }

  lemma NoDotInNumber(n: nat)
    ensures '.' !in NatToString(n) && ':' !in NatToString(n)
  {
    var r := NatToString(n);
    assert forall i :: 0 <= i < |r| ==> IsDigit(r[i]);
  }

  /** Four words joined by a character none of them holds split back into the four. */
  lemma SplitFour(w: String, x: String, y: String, z: String, c: char)
    requires c !in w && c !in x && c !in y && c !in z
    ensures Split(w + [c] + (x + [c] + (y + [c] + z)), c) == [w, x, y, z]
  {
    SplitNoSeparator(z, c);
    SplitAtFirst(y, c, z);
    SplitAtFirst(x, c, y + [c] + z);
    SplitAtFirst(w, c, x + [c] + (y + [c] + z));
  }

  /** The address splits back into "10" and the three octets, each read back as its number. */
  lemma Ipv4Octets(a: nat, b: nat, c: nat)
    ensures Split(Ipv4(a, b, c), '.') == ["10", NatToString(a), NatToString(b), NatToString(c)]
    ensures ParseInt10(Split(Ipv4(a, b, c), '.')[1]) == Some(a)
  {
    var sa, sb, sc := NatToString(a), NatToString(b), NatToString(c);
    NoDotInNumber(a);
    NoDotInNumber(b);
    NoDotInNumber(c);
    assert '.' !in "10";
    SplitFour("10", sa, sb, sc, '.');
    DottedForm(sa, sb, sc);
    ParseNatToString(a);
  }

  lemma DottedForm(sa: String, sb: String, sc: String)
    ensures "10." + sa + "." + sb + "." + sc == "10" + ['.'] + (sa + ['.'] + (sb + ['.'] + sc))
  {
    assert "10." == "10" + ['.'];
    assert "." == ['.'];
  }

  /** `generateRandomIPv4`: three octets drawn from 0..255 after "10.". */
  method GenerateRandomIPv4() returns (ip: String)
    ensures exists a: nat, b: nat, c: nat :: a < 256 && b < 256 && c < 256 && ip == Ipv4(a, b, c)
  {
    var a: nat :| a < 256;
    var b: nat :| b < 256;
    var c: nat :| c < 256;
    ip := Ipv4(a, b, c);
  }

  // ---------------------------------------------------------------------------------------------
  // Port entries (docker.js:85-114)
  // ---------------------------------------------------------------------------------------------

  /**
   * An entry of a service's `ports`: a string, any other value (a number or an object), or the
   * rewritten record. `target` is `None` where `parseInt` gives NaN.
   */
  datatype PortEntry =
    | PortText(text: String)
    | PortValue
    | PortConf(target: Option<int>, hostIp: String, protocol: String, published: String)

  /** `/^\d+$/`. */
  predicate Digits(s: String)
  {
    |s| > 0 && forall i :: 0 <= i < |s| ==> IsDigit(s[i])
  }

  /** `/^\d+:\d+$/`. */
  predicate PairShape(s: String)
  {
    var p := Split(s, ':');
    |p| == 2 && Digits(p[0]) && Digits(p[1])
  }

  /** What an unescaped `.` matches: any character but a line terminator. */
  predicate AnyChar(c: char)
  {
    c != '\n' && c != '\r' && c != '\U{2028}' && c != '\U{2029}'
  }

  /** `/^127.0.0.1:\d+:\d+$/`, whose dots match any character. */
  predicate LoopbackShape(s: String)
  {
    |s| >= 10 && s[..3] == "127" && AnyChar(s[3]) && s[4] == '0' && AnyChar(s[5]) && s[6] == '0'
    && AnyChar(s[7]) && s[8] == '1' && s[9] == ':' && PairShape(s[10..])
  }

  /** The published port recorded for an entry ("" for one not yet rewritten). */
  function PublishedOf(p: PortEntry): String
  {
    if p.PortConf? then p.published else ""
  }

  /**
   * One entry rewritten: "N" targets N on a random published port, "S:D" and "127.0.0.1:S:D"
   * target D published on S, any other string is an error naming the service, and a non-string
   * entry becomes the default record with target 0. `drawn` is the random port, 1025..31024.
   */
  function ConvertPort(p: PortEntry, name: String, ip: String, drawn: nat): (r: Result<PortEntry>)
    ensures r.Ok? ==> r.value.PortConf? && r.value.hostIp == ip && r.value.protocol == "tcp"
    ensures r.Err? <==> p.PortText? && !Digits(p.text) && !PairShape(p.text) && !LoopbackShape(p.text)
    ensures r.Err? ==> r.error == "Unknown ports format: " + name
    ensures !p.PortText? ==> r == Ok(PortConf(Some(0), ip, "tcp", NatToString(drawn)))
  {
    var random := NatToString(drawn);
    match p
    case PortText(s) =>
      if Digits(s) then Ok(PortConf(ParseInt10(s), ip, "tcp", random))
      else if PairShape(s) then
        var parts := Split(s, ':');
        Ok(PortConf(ParseInt10(parts[1]), ip, "tcp", parts[0]))
      else if LoopbackShape(s) then
        var parts := Split(s, ':');
        Ok(PortConf(ParseInt10(if |parts| > 2 then parts[2] else ""), ip, "tcp",
                    if |parts| > 1 then parts[1] else ""))
      else Err("Unknown ports format: " + name)
    case _ => Ok(PortConf(Some(0), ip, "tcp", random))
  }

  /** "N" targets N and publishes on the drawn port. */
  lemma PortSingle(n: nat, name: String, ip: String, drawn: nat)
    ensures ConvertPort(PortText(NatToString(n)), name, ip, drawn)
            == Ok(PortConf(Some(n), ip, "tcp", NatToString(drawn)))
  {
    ParseNatToString(n);
  }

  /** "S:D" for two numbers splits into them and has the pair shape. */
  lemma PairSplit(src: nat, dst: nat)
    ensures Split(NatToString(src) + ":" + NatToString(dst), ':') == [NatToString(src), NatToString(dst)]
    ensures PairShape(NatToString(src) + ":" + NatToString(dst))
  {
    var a, b := NatToString(src), NatToString(dst);
    NoDotInNumber(src);
    NoDotInNumber(dst);
    SplitNoSeparator(b, ':');
    assert a + ":" + b == a + [':'] + b;
    SplitAtFirst(a, ':', b);
  }

  /** "S:D" targets D and publishes on S. */
  lemma PortPair(src: nat, dst: nat, name: String, ip: String, drawn: nat)
    ensures ConvertPort(PortText(NatToString(src) + ":" + NatToString(dst)), name, ip, drawn)
            == Ok(PortConf(Some(dst), ip, "tcp", NatToString(src)))
  {
    var a, b := NatToString(src), NatToString(dst);
    var s := a + ":" + b;
    assert s[|a|] == ':';
    assert !Digits(s);
    PairSplit(src, dst);
    ParseNatToString(dst);
  }

  /** `host:S:D`, for a host without ':', splits into the host and the two numbers. */
  lemma HostPairSplit(host: String, src: nat, dst: nat)
    requires ':' !in host
    ensures Split(host + [':'] + (NatToString(src) + ":" + NatToString(dst)), ':')
            == [host, NatToString(src), NatToString(dst)]
  {
    PairSplit(src, dst);
    SplitAtFirst(host, ':', NatToString(src) + ":" + NatToString(dst));
  }

  /** "127.0.0.1:S:D" has three parts, so only the loopback pattern takes it. */
  lemma LoopbackSplit(src: nat, dst: nat)
    ensures var s := "127.0.0.1:" + NatToString(src) + ":" + NatToString(dst);
            !Digits(s) && !PairShape(s) && LoopbackShape(s)
            && Split(s, ':') == ["127.0.0.1", NatToString(src), NatToString(dst)]
  {
    PairSplit(src, dst);
    LoopbackForm(NatToString(src), NatToString(dst));
    assert ':' !in "127.0.0.1";
    HostPairSplit("127.0.0.1", src, dst);
  }

  lemma LoopbackForm(x: String, y: String)
    requires PairShape(x + ":" + y)
    ensures var s := "127.0.0.1:" + x + ":" + y;
            s == "127.0.0.1" + [':'] + (x + ":" + y) && !Digits(s) && LoopbackShape(s)
  {
    var pre, pair := "127.0.0.1:", x + ":" + y;
    var s := "127.0.0.1:" + x + ":" + y;
    assert s == pre + pair;
    assert pre == "127.0.0.1" + [':'];
    assert s[..10] == pre && s[10..] == pair;
    assert s[..3] == pre[..3] == "127";
    assert s[3] == pre[3] == '.';
    assert !IsDigit('.');
  }

  /** "127.0.0.1:S:D" targets D and publishes on S. */
  lemma PortLoopback(src: nat, dst: nat, name: String, ip: String, drawn: nat)
    ensures ConvertPort(PortText("127.0.0.1:" + NatToString(src) + ":" + NatToString(dst)), name, ip, drawn)
            == Ok(PortConf(Some(dst), ip, "tcp", NatToString(src)))
  {
    LoopbackSplit(src, dst);
    ParseNatToString(dst);
  }

  /** A protocol suffix is not understood: "80/udp" is an error. */
  lemma PortWithProtocol(name: String, ip: String, drawn: nat)
    ensures ConvertPort(PortText("80/udp"), name, ip, drawn).Err?
  {
    assert !IsDigit("80/udp"[2]);
    SplitNoSeparator("80/udp", ':');
  }

  /** `f` applied to every element with its index; the first error, if any. */
  function TryAll<T>(s: seq<T>, f: (T, nat) -> Result<T>): (r: Result<seq<T>>)
    ensures r.Ok? ==> |r.value| == |s| && forall i :: 0 <= i < |s| ==> f(s[i], i) == Ok(r.value[i])
    ensures r.Err? <==> exists i :: 0 <= i < |s| && f(s[i], i).Err?
  {
    if |s| == 0 then Ok([])
    else
      var n := |s| - 1;
      var front := TryAll(s[..n], f);
      var last := f(s[n], n);
      if front.Err? then front
      else if last.Err? then Err(last.error)
      else Ok(front.value + [last.value])
  }

  lemma TryAllNext<T>(s: seq<T>, i: nat, f: (T, nat) -> Result<T>, done: seq<T>, v: T)
    requires i < |s| && TryAll(s[..i], f) == Ok(done) && f(s[i], i) == Ok(v)
    ensures TryAll(s[..i + 1], f) == Ok(done + [v])
  {
    assert s[..i + 1][..i] == s[..i];
  }

  /** Every element replaced in place by `f` of it, stopping at the first error. */
  method TryEach<T>(a: array<T>, f: (T, nat) -> Result<T>) returns (failed: bool)
    modifies a
    ensures failed <==> TryAll(old(a[..]), f).Err?
    ensures !failed ==> TryAll(old(a[..]), f) == Ok(a[..])
  {
    ghost var before := a[..];
    var i := 0;
    while i < a.Length
      invariant 0 <= i <= a.Length
      invariant a[i..] == before[i..]
      invariant TryAll(before[..i], f) == Ok(a[..i])
    {
      ghost var done := a[..i];
      assert a[i] == before[i];
      var c := f(a[i], i);
      if c.Err? {
        assert f(before[i], i).Err?;
        return true;
      }
      TryAllNext(before, i, f, done, c.value);
      a[i] := c.value;
      assert a[..i + 1] == done + [c.value];
      assert a[i + 1..] == before[i + 1..];
      i := i + 1;
    }
    assert before[..i] == before && a[..i] == a[..];
    return false;
  }

  /** The rewrite of entry `i` of service `k`, drawing `draw(k, i)`. */
  function Conv(name: String, ip: String, draw: (nat, nat) -> nat, k: nat): (PortEntry, nat) -> Result<PortEntry>
  {
    (p: PortEntry, i: nat) => ConvertPort(p, name, ip, draw(k, i))
  }

  /** The entries of one service rewritten; an error when any entry is not understood. */
  function ConvertAll(entries: seq<PortEntry>, name: String, ip: String, draw: (nat, nat) -> nat, k: nat)
    : (r: Result<seq<PortEntry>>)
    ensures r.Ok? ==> |r.value| == |entries|
                      && forall i :: 0 <= i < |entries| ==> ConvertPort(entries[i], name, ip, draw(k, i)) == Ok(r.value[i])
    ensures r.Err? <==> exists i :: 0 <= i < |entries| && ConvertPort(entries[i], name, ip, draw(k, i)).Err?
    ensures r.Err? ==> r.error == "Unknown ports format: " + name
  {
    var r := TryAll(entries, Conv(name, ip, draw, k));
    if r.Err? then Err("Unknown ports format: " + name) else r
  }

  /** The entries of one service, each replaced where it stands, and the ports they publish. */
  method ConvertPorts(ports: array<PortEntry>, name: String, ip: String, draw: (nat, nat) -> nat, k: nat)
    returns (exposed: seq<String>, failed: bool)
    modifies ports
    ensures failed <==> ConvertAll(old(ports[..]), name, ip, draw, k).Err?
    ensures !failed ==> ConvertAll(old(ports[..]), name, ip, draw, k) == Ok(ports[..])
                        && exposed == MapSeq(ports[..], PublishedOf)
  {
    failed := TryEach(ports, Conv(name, ip, draw, k));
    exposed := if failed then [] else MapSeq(ports[..], PublishedOf);
  }

  // ---------------------------------------------------------------------------------------------
  // Services (docker.js:85-87)
  // ---------------------------------------------------------------------------------------------

  /** A service's `ports`: absent or falsy, present but not an array, or a list. */
  datatype Ports = NoPorts | NotAList | PortList(entries: seq<PortEntry>)

  /** A compose service: not an object, `null` (whose `.ports` throws), or an object. */
  datatype Service = NotObject | NullService | Service(ports: Ports)

  /** One service: skipped, rejected, or its port list rewritten with its exposed ports. */
  function RewriteOne(name: String, svc: Service, ip: String, draw: (nat, nat) -> nat, k: nat)
    : (r: Result<(Service, seq<String>)>)
    ensures r.Ok? && !(svc.Service? && svc.ports.PortList?) ==> r.value == (svc, [])
    ensures svc.Service? && (svc.ports.NotAList? || svc.ports == PortList([])) ==> r.Err?
  {
    match svc
    case NotObject => Ok((svc, []))
    case NullService => Err("Cannot read properties of null (reading 'ports')")
    case Service(NoPorts) => Ok((svc, []))
    case Service(NotAList) => Err("Invalid ports format in service: " + name)
    case Service(PortList(e)) =>
      if |e| == 0 then Err("Invalid ports format in service: " + name)
      else
        var c := ConvertAll(e, name, ip, draw, k);
        if c.Err? then Err(c.error)
        else Ok((Service(PortList(c.value)), MapSeq(c.value, PublishedOf)))
  }

  /** Every port entry a service list holds is a rewritten record on the site's address. */
  predicate OnAddress(services: seq<(String, Service)>, ip: String)
  {
    forall k, i :: 0 <= k < |services| && services[k].1.Service? && services[k].1.ports.PortList?
                   && 0 <= i < |services[k].1.ports.entries|
                   ==> services[k].1.ports.entries[i].PortConf? && services[k].1.ports.entries[i].hostIp == ip
  }

  /**
   * The services in order, with the published ports of all of them; the first service in error
   * ends the rewrite with its error.
   */
  function RewriteAll(services: seq<(String, Service)>, ip: String, draw: (nat, nat) -> nat)
    : (r: Result<(seq<(String, Service)>, seq<String>)>)
    ensures r.Ok? ==> |r.value.0| == |services| && OnAddress(r.value.0, ip)
                      && forall k :: 0 <= k < |services| ==> r.value.0[k].0 == services[k].0
  {
    if |services| == 0 then Ok(([], []))
    else
      var n := |services| - 1;
      var front := RewriteAll(services[..n], ip, draw);
      if front.Err? then front
      else
        var one := RewriteOne(services[n].0, services[n].1, ip, draw, n);
        if one.Err? then Err(one.error)
        else
          OneOnAddress(services[n].0, services[n].1, ip, draw, n);
          OnAddressSnoc(front.value.0, (services[n].0, one.value.0), ip);
          Ok((front.value.0 + [(services[n].0, one.value.0)], front.value.1 + one.value.1))
  }

  /** A service rewritten without error holds only records on the site's address. */
  lemma OneOnAddress(name: String, svc: Service, ip: String, draw: (nat, nat) -> nat, k: nat)
    requires RewriteOne(name, svc, ip, draw, k).Ok?
    ensures OnAddress([(name, RewriteOne(name, svc, ip, draw, k).value.0)], ip)
  {
    if svc.Service? && svc.ports.PortList? {
      var e := svc.ports.entries;
      var c := ConvertAll(e, name, ip, draw, k).value;
      assert forall i :: 0 <= i < |c| ==> ConvertPort(e[i], name, ip, draw(k, i)) == Ok(c[i]);
    }
  }

  lemma OnAddressSnoc(front: seq<(String, Service)>, x: (String, Service), ip: String)
    requires OnAddress(front, ip) && OnAddress([x], ip)
    ensures OnAddress(front + [x], ip)
  {
    var all := front + [x];
    assert forall k :: 0 <= k < |front| ==> all[k] == front[k];
    assert all[|front|] == [x][0];
  }

  /** An error in a prefix is the error of the whole list. */
  lemma {:induction false} RewriteAllErrSticky(services: seq<(String, Service)>, k: nat, ip: String,
                                               draw: (nat, nat) -> nat)
    requires k <= |services|
    requires RewriteAll(services[..k], ip, draw).Err?
    ensures RewriteAll(services, ip, draw) == RewriteAll(services[..k], ip, draw)
    decreases |services| - k
  {
    if k < |services| {
      assert services[..k + 1][..k] == services[..k];
      RewriteAllErrSticky(services, k + 1, ip, draw);
    } else {
      assert services[..k] == services;
    }
  }

  /** One service, its port list copied into an array and rewritten there. */
  method RewriteEntry(name: String, svc: Service, ip: String, draw: (nat, nat) -> nat, k: nat)
    returns (one: Result<(Service, seq<String>)>)
    ensures one == RewriteOne(name, svc, ip, draw, k)
  {
    if svc.Service? && svc.ports.PortList? && |svc.ports.entries| > 0 {
      var e := svc.ports.entries;
      var a := new PortEntry[|e|](i requires 0 <= i < |e| => e[i]);
      assert a[..] == e;
      var more, failed := ConvertPorts(a, name, ip, draw, k);
      one := if failed then Err("Unknown ports format: " + name) else Ok((Service(PortList(a[..])), more));
    } else {
      one := RewriteOne(name, svc, ip, draw, k);
    }
  }

  /** The list one service longer is the shorter one's result followed by that service's. */
  lemma RewriteAllNext(services: seq<(String, Service)>, k: nat, ip: String, draw: (nat, nat) -> nat)
    requires k < |services|
    ensures var front := RewriteAll(services[..k], ip, draw);
            var one := RewriteOne(services[k].0, services[k].1, ip, draw, k);
            RewriteAll(services[..k + 1], ip, draw)
            == if front.Err? then front
               else if one.Err? then Err(one.error)
               else Ok((front.value.0 + [(services[k].0, one.value.0)], front.value.1 + one.value.1))
  {
    assert services[..k + 1][..k] == services[..k];
  }

  /** The loop over `Object.entries(services)`, each port list rewritten in place. */
  method RewriteServices(services: seq<(String, Service)>, ip: String, draw: (nat, nat) -> nat)
    returns (r: Result<(seq<(String, Service)>, seq<String>)>)
    ensures r == RewriteAll(services, ip, draw)
  {
    var out: seq<(String, Service)> := [];
    var exposed: seq<String> := [];
    for k := 0 to |services|
      invariant RewriteAll(services[..k], ip, draw) == Ok((out, exposed))
    {
      RewriteAllNext(services, k, ip, draw);
      var one := RewriteEntry(services[k].0, services[k].1, ip, draw, k);
      if one.Err? {
        RewriteAllErrSticky(services, k + 1, ip, draw);
        return Err(one.error);
      }
      out := out + [(services[k].0, one.value.0)];
      exposed := exposed + one.value.1;
    }
    assert services[..|services|] == services;
    return Ok((out, exposed));
  }

  // ---------------------------------------------------------------------------------------------
  // The "/" location's proxy_pass (docker.js:115-134)
  // ---------------------------------------------------------------------------------------------

  datatype Location = Location(path: String, proxyPass: Option<String>)

  /** The part of the site's nginx info the rewrite reads and writes. */
  datatype NginxInfo = NginxInfo(dockerIp: Option<String>, locations: Option<seq<Location>>)

  /** `proxy_pass + ""`: a missing value reads "undefined". */
  function ProxyText(p: Option<String>): String
  {
    if p.Some? then p.value else "undefined"
  }

  function RootIndex(locs: seq<Location>): int
  {
    FindIndex(locs, (l: Location) => l.path == "/")
  }

  /** Lists with the same paths have their "/" location at the same place. */
  lemma RootIndexByPaths(a: seq<Location>, b: seq<Location>)
    requires |a| == |b| && forall j :: 0 <= j < |a| ==> a[j].path == b[j].path
    ensures RootIndex(a) == RootIndex(b)
  {
    var i, j := RootIndex(a), RootIndex(b);
    if i >= 0 {
      assert b[i] in b && b[i].path == "/";
    }
    if j >= 0 {
      assert a[j] in a && a[j].path == "/";
    }
  }

  /** The locations with a "/" location appended when there is none. */
  function WithRoot(locs: Option<seq<Location>>): (r: seq<Location>)
    ensures 0 <= RootIndex(r) < |r|
  {
    var l := if locs.Some? then locs.value else [];
    if RootIndex(l) >= 0 then l
    else
      var r := l + [Location("/", None)];
      assert r[|l|] in r && r[|l|].path == "/";
      r
  }

  /**
   * Whether the "/" proxy is reassigned. As written it is reassigned when it is not a docker
   * target or when its port IS one of the exposed ports (`fixed` false); the intended test
   * reassigns it when its port is NOT exposed (`fixed` true).
   */
  predicate Reassign(pp: String, exposed: seq<String>, fixed: bool)
  {
    pp == "" || !StartsWith(pp, "docker:") || ((pp[7..] in exposed) != fixed)
  }

  /** The new locations and whether they differ from the old, or the no-exposed-ports error. */
  function SelectProxy(locs: Option<seq<Location>>, exposed: seq<String>, fixed: bool)
    : (r: Result<(seq<Location>, bool)>)
    ensures var l := WithRoot(locs);
            r.Err? <==> Reassign(ProxyText(l[RootIndex(l)].proxyPass), exposed, fixed) && |exposed| == 0
    ensures r.Ok? ==> |r.value.0| == |WithRoot(locs)| && RootIndex(r.value.0) == RootIndex(WithRoot(locs))
  {
    var l := WithRoot(locs);
    var created := locs.None? || RootIndex(locs.value) < 0;
    var i := RootIndex(l);
    var pp := ProxyText(l[i].proxyPass);
    if !Reassign(pp, exposed, fixed) then Ok((l, created))
    else if |exposed| == 0 then Err("There are no exposed ports! Need atleast one to forward it into NGINX")
    else
      var l' := l[i := l[i].(proxyPass := Some("docker:" + exposed[|exposed| - 1]))];
      RootIndexByPaths(l, l');
      Ok((l', true))
  }

  /** The intended test leaves the "/" location pointing at a port that is actually published. */
  lemma ProxyFixedTargetsExposed(locs: Option<seq<Location>>, exposed: seq<String>)
    requires SelectProxy(locs, exposed, true).Ok?
    ensures var l := SelectProxy(locs, exposed, true).value.0;
            exists p :: p in exposed && l[RootIndex(l)].proxyPass == Some("docker:" + p)
  {
    var l := WithRoot(locs);
    var i := RootIndex(l);
    var pp := ProxyText(l[i].proxyPass);
    if !Reassign(pp, exposed, true) {
      assert !StartsWith("undefined", "docker:") by {
        assert "undefined"[..7][0] == 'u';
      }
      assert pp[..7] == "docker:";
      assert pp == "docker:" + pp[7..];
      assert l[i].proxyPass == Some(pp);
    } else {
      assert exposed[|exposed| - 1] in exposed;
    }
  }

  /**
   * As written, a proxy left over from an earlier run, whose port is no longer published, is
   * kept: nginx goes on forwarding to a port nothing listens on.
   */
  lemma ProxyAsWrittenKeepsStale()
    ensures var locs := Some([Location("/", Some("docker:2000"))]);
            SelectProxy(locs, ["3000"], false) == Ok((locs.value, false))
  {
    var l := [Location("/", Some("docker:2000"))];
    assert RootIndex(l) == 0;
    assert "docker:2000"[7..] == "2000";
    assert "2000" !in ["3000"];
  }

  /** As written, a proxy chosen among several published ports is moved to the last one. */
  lemma ProxyAsWrittenOverridesChoice()
    ensures var locs := Some([Location("/", Some("docker:3000"))]);
            SelectProxy(locs, ["3000", "8080"], false) == Ok(([Location("/", Some("docker:8080"))], true))
  {
    var l := [Location("/", Some("docker:3000"))];
    assert RootIndex(l) == 0;
    assert WithRoot(Some(l)) == l;
    assert StartsWith("docker:3000", "docker:");
    assert "docker:3000"[7..] == "3000";
    assert "3000" in ["3000", "8080"];
    assert Reassign("docker:3000", ["3000", "8080"], false);
    assert "docker:" + "8080" == "docker:8080";
    var l' := l[0 := l[0].(proxyPass := Some("docker:" + ["3000", "8080"][1]))];
    assert SelectProxy(Some(l), ["3000", "8080"], false) == Ok((l', true));
    assert l' == [Location("/", Some("docker:8080"))];
  }

  // ---------------------------------------------------------------------------------------------
  // rewriteServices as a whole (docker.js:74-136)
  // ---------------------------------------------------------------------------------------------

  /**
   * The rewrite with the address `ip` (`ipNew` when it was generated): the services, the site's
   * new nginx info, and whether nginx has to be written.
   */
  function Compose(services: seq<(String, Service)>, info: NginxInfo, ip: String, ipNew: bool,
                   draw: (nat, nat) -> nat, fixed: bool)
    : (r: Result<(seq<(String, Service)>, NginxInfo, bool)>)
    ensures r.Ok? ==> OnAddress(r.value.0, ip) && r.value.1.dockerIp == Some(ip)
    ensures r.Ok? && ipNew ==> r.value.2
  {
    var s := RewriteAll(services, ip, draw);
    if s.Err? then Err(s.error)
    else
      var p := SelectProxy(info.locations, s.value.1, fixed);
      if p.Err? then Err(p.error)
      else Ok((s.value.0, NginxInfo(Some(ip), Some(p.value.0)), ipNew || p.value.1))
  }

  /** The TypeError of a call to `nginxExec.setDirect`, which the nginx executor does not define. */
  const SetDirectMissing: String := "nginxExec.setDirect is not a function"

  /**
   * As written, with the address `ip` drawn: `extractInfo` never sets `docker_ip`, so an address
   * is always generated and nginx always has to be written; the write calls `setDirect`, which
   * throws. The rewrite ends in the first port or proxy error, or else in that TypeError.
   */
  function ComposeAsWritten(services: seq<(String, Service)>, info: NginxInfo, ip: String,
                            draw: (nat, nat) -> nat): (r: Result<(seq<(String, Service)>, NginxInfo, bool)>)
    ensures r.Err?
    ensures Compose(services, info, ip, true, draw, false).Err? ==> r == Compose(services, info, ip, true, draw, false)
    ensures Compose(services, info, ip, true, draw, false).Ok? ==> r == Err(SetDirectMissing)
  {
    var c := Compose(services, info, ip, true, draw, false);
    if c.Err? then c else Err(SetDirectMissing)
  }

  /**
   * Where the as-written rewrite gets past the ports and the proxy, nginx had to be written (the
   * address is always new) and the rewrite rejects with the TypeError instead of resolving.
   */
  lemma AsWrittenWriteFails(services: seq<(String, Service)>, info: NginxInfo, ip: String, draw: (nat, nat) -> nat)
    requires Compose(services, info, ip, true, draw, false).Ok?
    ensures Compose(services, info, ip, true, draw, false).value.2
    ensures ComposeAsWritten(services, info, ip, draw) == Err(SetDirectMissing)
  {
  }

  /**
   * `rewriteServices` as written: it never resolves. Every call either fails on a port or proxy
   * or reaches the missing `setDirect`, whatever the services and the site.
   */
  method RewriteAsWritten(services: seq<(String, Service)>, info: NginxInfo, draw: (nat, nat) -> nat)
    returns (r: Result<(seq<(String, Service)>, NginxInfo, bool)>)
    ensures r.Err?
    ensures exists a: nat, b: nat, c: nat :: a < 256 && b < 256 && c < 256
              && r == ComposeAsWritten(services, info, Ipv4(a, b, c), draw)
  {
    var ip := GenerateRandomIPv4();
    var c := ComposeWith(services, info, ip, true, draw, false);
    if c.Err? {
      return c;
    }
    return Err(SetDirectMissing);
  }

  /**
   * Corrected, `rewriteServices`: the site's address is kept when it has one (an address the
   * nginx info would have to carry), the proxy test is the intended one, and the new nginx info
   * is returned to be written. The address is generated first when the site has none.
   */
  method Rewrite(services: seq<(String, Service)>, info: NginxInfo, draw: (nat, nat) -> nat)
    returns (r: Result<(seq<(String, Service)>, NginxInfo, bool)>)
    ensures info.dockerIp.Some? && info.dockerIp.value != "" ==>
              r == Compose(services, info, info.dockerIp.value, false, draw, true)
    ensures !(info.dockerIp.Some? && info.dockerIp.value != "") ==>
              exists a: nat, b: nat, c: nat :: a < 256 && b < 256 && c < 256
                && r == Compose(services, info, Ipv4(a, b, c), true, draw, true)
  {
    if info.dockerIp.Some? && info.dockerIp.value != "" {
      r := ComposeWith(services, info, info.dockerIp.value, false, draw, true);
    } else {
      var ip := GenerateRandomIPv4();
      r := ComposeWith(services, info, ip, true, draw, true);
    }
  }

  /** The port rewrite and the proxy choice (`fixed` selects the test), with the address settled. */
  method ComposeWith(services: seq<(String, Service)>, info: NginxInfo, ip: String, ipNew: bool,
                     draw: (nat, nat) -> nat, fixed: bool)
    returns (r: Result<(seq<(String, Service)>, NginxInfo, bool)>)
    ensures r == Compose(services, info, ip, ipNew, draw, fixed)
  {
    var s := RewriteServices(services, ip, draw);
    if s.Err? {
      return Err(s.error);
    }
    var p := SelectProxy(info.locations, s.value.1, fixed);
    if p.Err? {
      return Err(p.error);
    }
    return Ok((s.value.0, NginxInfo(Some(ip), Some(p.value.0)), ipNew || p.value.1));
  }

  // ---------------------------------------------------------------------------------------------
  // executeServices (docker.js:144-170)
  // ---------------------------------------------------------------------------------------------

  /**
   * As written, the services `executeServices` writes to the compose file: `rewriteServices` is
   * called without `await`, so `composeObject.services` is the pending Promise, which has no own
   * properties and is serialised as an empty mapping; a rejection of the rewrite never reaches
   * the caller.
   */
  function ExecuteAsWritten(rewrite: Result<(seq<(String, Service)>, NginxInfo, bool)>): (w: Result<seq<(String, Service)>>)
    ensures w == Ok([])
  {
    Ok([])
  }

  /**
   * Corrected, with the rewrite awaited: the compose file holds the rewritten services, and a
   * rejection ends `executeServices` before anything is written.
   */
  function ExecuteFixed(rewrite: Result<(seq<(String, Service)>, NginxInfo, bool)>): (w: Result<seq<(String, Service)>>)
    ensures w.Ok? <==> rewrite.Ok?
    ensures w.Ok? ==> w.value == rewrite.value.0
    ensures w.Err? ==> w.error == rewrite.error
  {
    if rewrite.Err? then Err(rewrite.error) else Ok(rewrite.value.0)
  }

  /**
   * As written, a compose file with services is written back without any, and a rewrite error is
   * lost; awaited, the file keeps every service under its name, bound to the site's address.
   */
  lemma UnawaitedRewriteLost(services: seq<(String, Service)>, info: NginxInfo, ip: String, ipNew: bool,
                             draw: (nat, nat) -> nat)
    requires |services| > 0
    ensures var c := Compose(services, info, ip, ipNew, draw, true);
            ExecuteAsWritten(c) == Ok([])
            && (c.Ok? ==> ExecuteFixed(c).Ok? && |ExecuteFixed(c).value| == |services|
                          && OnAddress(ExecuteFixed(c).value, ip) && ExecuteFixed(c) != ExecuteAsWritten(c))
            && (c.Err? ==> ExecuteFixed(c) == Err(c.error))
  {
    var c := Compose(services, info, ip, ipNew, draw, true);
    if c.Ok? {
      var s := RewriteAll(services, ip, draw);
      assert c.value.0 == s.value.0;
      assert |ExecuteFixed(c).value| == |services| > 0;
    }
  }
}
