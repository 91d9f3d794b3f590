/**
 * The deploy daemon (deployd/): it listens on a Unix socket, reads the uid the kernel attests for
 * the peer of each connection, and forwards every request on that connection to the local
 * runner's `/runner/unix` endpoint on behalf of that uid, with the shared secret.
 *
 * The environment, the socket calls (`conn.File()`, getsockopt) and the upstream HTTP client are
 * parameters: a descriptor or an error, a credential record or an error, a response body or none.
 */
module Deployd {
  import opened Base
  import opened Strings

  newtype u32 = x: int | 0 <= x < 0x1_0000_0000
  newtype i32 = x: int | -0x8000_0000 <= x < 0x8000_0000

  /** The peer's identity as the daemon hands it on. */
  datatype Credentials = Credentials(uid: u32, gid: u32, pid: i32)

  // ---------------------------------------------------------------------------------------------
  // getPeerCred
  // ---------------------------------------------------------------------------------------------

  /** Linux `struct ucred`, as SO_PEERCRED fills it. */
  datatype Ucred = Ucred(pid: i32, uid: u32, gid: u32)

  const MaxGroups: int := 16
  const XucredVersion: u32 := 0

  /** The fixed-size group array of `struct xucred`. */
  type Groups = g: seq<u32> | |g| == MaxGroups witness seq(16, _ => 0)

  /** Darwin `struct xucred`, as LOCAL_PEERCRED fills it. */
  datatype Xucred = Xucred(version: u32, uid: u32, ngroups: int, groups: Groups)

  /** The raw getsockopt call on Darwin: the record it filled in and the errno it returned. */
  datatype Sockopt = Sockopt(cred: Xucred, errno: int)

  /**
   * A call of getPeerCred: its credentials or its error, whether it duplicated the connection's
   * descriptor, and whether it closed that duplicate before returning.
   */
  datatype PeerCall = PeerCall(creds: Result<Credentials>, duplicated: bool, closed: bool)

  /** getPeerCred on Linux: the ucred fields are copied unchanged. */
  function PeerCredLinux(file: Result<int>, getsockopt: int -> Result<Ucred>): (c: PeerCall)
    ensures c.duplicated <==> file.Ok?
  {
    match file
    case Err(e) => PeerCall(Err(e), false, false)
    case Ok(fd) =>
      match getsockopt(fd)
      case Err(e) => PeerCall(Err(e), true, true)
      case Ok(u) => PeerCall(Ok(Credentials(u.uid, u.gid, u.pid)), true, true)
  }

  /**
   * getPeerCred on Darwin: a non-zero errno becomes a syscall error, a record of another version
   * is refused, and the gid is the first group; the pid is not available and reads -1.
   */
  function PeerCredDarwin(file: Result<int>, getsockopt: int -> Sockopt, strerror: int -> String): (c: PeerCall)
    ensures c.duplicated <==> file.Ok?
  {
    match file
    case Err(e) => PeerCall(Err(e), false, false)
    case Ok(fd) =>
      var r := getsockopt(fd);
      if r.errno != 0 then PeerCall(Err("getsockopt: " + strerror(r.errno)), true, true)
      else if r.cred.version != XucredVersion then PeerCall(Err("unexpected xucred version"), true, true)
      else PeerCall(Ok(Credentials(r.cred.uid, r.cred.groups[0], -1)), true, true)
  }

  /**
   * On both platforms the duplicated descriptor is closed on every return after it was obtained,
   * and credentials come only from a successful getsockopt: on Linux exactly when it succeeds, on
   * Darwin exactly when it returns no errno and a record of the expected version.
   */
  lemma PeerCredCloses(file: Result<int>, linux: int -> Result<Ucred>, darwin: int -> Sockopt, strerror: int -> String)
    ensures var l := PeerCredLinux(file, linux);
            (l.duplicated ==> l.closed)
            && (l.creds.Ok? <==> file.Ok? && linux(file.value).Ok?)
            && (file.Err? ==> l.creds == Err(file.error))
    ensures var d := PeerCredDarwin(file, darwin, strerror);
            (d.duplicated ==> d.closed)
            && (d.creds.Ok? <==> file.Ok? && darwin(file.value).errno == 0 && darwin(file.value).cred.version == 0)
            && (file.Err? ==> d.creds == Err(file.error))
  {
  }

  /**
   * The two platforms agree on the peer's user and group: a Linux record and a Darwin record
   * (of the expected version) for the same peer yield the same uid and gid, and differ only in
   * the pid, which Darwin does not report.
   */
  lemma PlatformsAgree(fd: int, u: Ucred, x: Xucred, linux: int -> Result<Ucred>, darwin: int -> Sockopt,
                       strerror: int -> String)
    requires linux(fd) == Ok(u) && darwin(fd) == Sockopt(x, 0) && x.version == XucredVersion
    requires x.uid == u.uid && x.groups[0] == u.gid
    ensures var l := PeerCredLinux(Ok(fd), linux).creds;
            var d := PeerCredDarwin(Ok(fd), darwin, strerror).creds;
            l.Ok? && d.Ok? && l.value.uid == d.value.uid == u.uid && l.value.gid == d.value.gid == u.gid
            && l.value.pid == u.pid && d.value.pid == -1
  {
  }

  // ---------------------------------------------------------------------------------------------
  // Start-up
  // ---------------------------------------------------------------------------------------------

  const DefaultSocket: String := "/run/bridge/deployd.sock"
  const DefaultPort: String := "2223"
  const SecretRequired: String := "SECRET env is required"

  /** `os.Getenv` read with a default: an unset or empty variable takes the default. */
  function OrDefault(env: String, default: String): String
  {
    if env == "" then default else env
  }

  /** What the daemon does on start, in order. */
  datatype Step = RemoveFile(path: String) | Listen(path: String) | Panic(message: String)
                | Serve(port: String, secret: String)

  /**
   * `main`: the stale socket file is removed and the listener created before the secret is
   * looked at, so that an empty secret panics only after both.
   */
  function Startup(socketEnv: String, portEnv: String, secret: String): (r: seq<Step>)
    ensures |r| == 3
  {
    var socket := OrDefault(socketEnv, DefaultSocket);
    [RemoveFile(socket), Listen(socket),
     if secret == "" then Panic(SecretRequired) else Serve(OrDefault(portEnv, DefaultPort), secret)]
  }

  /**
   * The socket is /run/bridge/deployd.sock and the port 2223 unless set; the daemon serves
   * exactly when a secret is set, and otherwise panics after removing the socket file and
   * listening on it.
   */
  lemma StartupSteps(socketEnv: String, portEnv: String, secret: String)
    ensures var r := Startup(socketEnv, portEnv, secret);
            var socket := if socketEnv == "" then "/run/bridge/deployd.sock" else socketEnv;
            r[0] == RemoveFile(socket) && r[1] == Listen(socket)
            && (r[2].Serve? <==> secret != "")
            && (r[2].Serve? ==> r[2] == Serve(if portEnv == "" then "2223" else portEnv, secret))
            && (!r[2].Serve? ==> r[2] == Panic("SECRET env is required"))
  {
  }

  // ---------------------------------------------------------------------------------------------
  // Forwarding
  // ---------------------------------------------------------------------------------------------

  datatype Request = Request(verb: String, uri: String, headers: seq<(String, String)>, body: String)
  datatype Response = Response(headers: seq<(String, String)>, body: String)
  datatype Exchange = Exchange(request: Request, response: Response)

  /** The runner endpoint for a port, up to the user's number. */
  function UriPrefix(port: String): String
  {
    "http://127.0.0.1:" + port + "/runner/unix?user="
  }

  /** `fmt.Sprintf("http://127.0.0.1:%s/runner/unix?user=%d", targetPort, credentials.Uid)`. */
  function UriFor(port: String, uid: u32): String
  {
    UriPrefix(port) + NatToString(uid as int)
  }

  /**
   * The handler: the request body goes upstream as a POST for the connection's uid with the
   * bearer secret; the answer is plain text whose body is the upstream body, when there was a
   * response. It always forwards: the stored credentials are never nil.
   */
  function Forward(creds: Ucred, port: String, secret: String, body: String,
                   upstream: Request -> Option<String>): (r: Exchange)
    ensures r.request.verb == "POST" && r.request.uri == UriFor(port, creds.uid)
  {
    var request := Request("POST", UriFor(port, creds.uid), [("authorization", "Bearer " + secret)], body);
    var reply := upstream(request);
    Exchange(request,
             Response([("Content-Type", "text/plain"), ("Transfer-Encoding", " chunked")],
                      if reply.Some? then reply.value else ""))
  }

  /**
   * The upstream request names the peer's uid, and only it: the number after `user=` reads back
   * as that uid, and peers with different uids are forwarded to different addresses.
   */
  lemma UriNamesUser(port: String, uid: u32, other: u32)
    ensures var uri := UriFor(port, uid);
            StartsWith(uri, UriPrefix(port)) && ParseInt10(uri[|UriPrefix(port)|..]) == Some(uid as int)
    ensures uid != other ==> UriFor(port, uid) != UriFor(port, other)
  {
    var uri := UriFor(port, uid);
    assert uri[..|UriPrefix(port)|] == UriPrefix(port);
    assert uri[|UriPrefix(port)|..] == NatToString(uid as int);
    ParseNatToString(uid as int);
    if uid != other && UriFor(port, uid) == UriFor(port, other) {
      assert UriFor(port, other)[|UriPrefix(port)|..] == NatToString(other as int);
      NatToStringInjective(uid as int, other as int);
    }
  }

  /**
   * What is forwarded: a POST to the runner for the peer's uid, carrying the secret and the
   * request body unchanged; the reply is always marked plain text and chunked, and carries the
   * upstream body, or nothing when no response came back.
   */
  lemma ForwardSends(u: Ucred, port: String, secret: String, body: String, upstream: Request -> Option<String>)
    ensures var r := Forward(u, port, secret, body, upstream);
            r.request.verb == "POST" && r.request.uri == UriFor(port, u.uid)
            && r.request.body == body
            && ("authorization", "Bearer " + secret) in r.request.headers
            && r.response.headers == [("Content-Type", "text/plain"), ("Transfer-Encoding", " chunked")]
            && (upstream(r.request).None? ==> r.response.body == "")
            && (upstream(r.request).Some? ==> r.response.body == upstream(r.request).value)
  {
  }

  // ---------------------------------------------------------------------------------------------
  // The server
  // ---------------------------------------------------------------------------------------------

  /** The descriptor `main` passes to getsockopt: a failed `File()` leaves a nil file, whose `Fd()` is -1. */
  function FdOf(file: Result<int>): int
  {
    if file.Ok? then file.value else -1
  }

  /**
   * The record `syscall.GetsockoptUcred` points to after a failed call: it returns the address of
   * its own zeroed `Ucred` together with the error, so the pointer it gives is never nil.
   */
  const ZeroUcred: Ucred := Ucred(0, 0, 0)

  /**
   * As written, the credentials `ConnContext` stores: whatever getsockopt gave, or the zero
   * record when it failed (the error is discarded).
   */
  function ConnCredentials(file: Result<int>, getsockopt: int -> Result<Ucred>): (r: Ucred)
    ensures getsockopt(FdOf(file)).Ok? ==> r == getsockopt(FdOf(file)).value
    ensures getsockopt(FdOf(file)).Err? ==> r == ZeroUcred && r.uid == 0
  {
    var u := getsockopt(FdOf(file));
    if u.Ok? then u.value else ZeroUcred
  }

  /**
   * Where both read a descriptor, the credentials `main` stores for a connection are the ones
   * getPeerCred reports on Linux when it succeeds, and the zero record (uid 0, root) when it fails.
   */
  lemma ConnAgreesWithPeerCred(fd: int, getsockopt: int -> Result<Ucred>)
    ensures var stored := ConnCredentials(Ok(fd), getsockopt);
            var peer := PeerCredLinux(Ok(fd), getsockopt).creds;
            (peer.Ok? ==> peer.value == Credentials(stored.uid, stored.gid, stored.pid))
            && (peer.Err? ==> stored == ZeroUcred)
  {
  }

  /**
   * As written, a connection whose credentials could not be read (a failed `File()`, whose
   * descriptor -1 getsockopt refuses, or a failed getsockopt) is forwarded as uid 0, root's, with
   * the bearer secret.
   */
  lemma FailedReadForwardsRoot(file: Result<int>, getsockopt: int -> Result<Ucred>, port: String, secret: String,
                               body: String, upstream: Request -> Option<String>)
    requires getsockopt(FdOf(file)).Err?
    ensures var r := Forward(ConnCredentials(file, getsockopt), port, secret, body, upstream);
            r.request.uri == UriFor(port, 0) && ("authorization", "Bearer " + secret) in r.request.headers
  {
  }

  /** Corrected, the stored credentials say whether they were read: nil (None) on a failed read. */
  function ConnCredentialsFixed(file: Result<int>, getsockopt: int -> Result<Ucred>): (r: Option<Ucred>)
    ensures r.Some? <==> getsockopt(FdOf(file)).Ok?
    ensures r.Some? ==> r.value == ConnCredentials(file, getsockopt)
  {
    var u := getsockopt(FdOf(file));
    if u.Ok? then Some(u.value) else None
  }

  const NoCredentials: String := "peer credentials could not be read"

  /** Corrected, a connection without credentials is refused instead of forwarded. */
  function ForwardFixed(creds: Option<Ucred>, port: String, secret: String, body: String,
                        upstream: Request -> Option<String>): (r: Result<Exchange>)
    ensures r.Err? <==> creds.None?
    ensures r.Ok? ==> r.value.request.uri == UriFor(port, creds.value.uid)
  {
    if creds.None? then Err(NoCredentials) else Ok(Forward(creds.value, port, secret, body, upstream))
  }

  /**
   * Corrected, a request is forwarded exactly when getsockopt read the peer's credentials, and
   * then for the uid it read; as written, the same read forwards for the same uid.
   */
  lemma FixedForwardsOnlyReadUid(file: Result<int>, getsockopt: int -> Result<Ucred>, port: String, secret: String,
                                 body: String, upstream: Request -> Option<String>)
    ensures var r := ForwardFixed(ConnCredentialsFixed(file, getsockopt), port, secret, body, upstream);
            (r.Ok? <==> getsockopt(FdOf(file)).Ok?)
            && (r.Ok? ==> r.value.request.uri == UriFor(port, getsockopt(FdOf(file)).value.uid)
                          && r.value == Forward(ConnCredentials(file, getsockopt), port, secret, body, upstream))
  {
  }

  /**
   * The HTTP server over the listener: the credentials read once for each accepted connection,
   * and the count of descriptors `ConnContext` duplicated and did not close. `unread` holds the
   * connections whose read failed: the source keeps no such record and its handler does not
   * look at it; the corrected handler refuses them.
   */
  class Server {
    const port: String
    const secret: String
    var contexts: map<int, Ucred>
    var unread: set<int>
    var duplicates: nat

    constructor(port: String, secret: String)
      ensures this.port == port && this.secret == secret
      ensures contexts == map[] && unread == {} && duplicates == 0
    {
      this.port := port;
      this.secret := secret;
      contexts := map[];
      unread := {};
      duplicates := 0;
    }

    /** `ConnContext` for a new connection: its peer's credentials are read and kept for it. */
    method ConnContext(conn: int, file: Result<int>, getsockopt: int -> Result<Ucred>)
      modifies this
      ensures contexts == old(contexts)[conn := ConnCredentials(file, getsockopt)]
      ensures unread == if getsockopt(FdOf(file)).Err? then old(unread) + {conn} else old(unread) - {conn}
      ensures duplicates == old(duplicates) + (if file.Ok? then 1 else 0)
    {
      var fd := if file.Ok? then file.value else -1;
      var read := getsockopt(fd);
      var credentials := if read.Ok? then read.value else ZeroUcred;
      contexts := contexts[conn := credentials];
      if read.Err? {
        unread := unread + {conn};
      } else {
        unread := unread - {conn};
      }
      if file.Ok? {
        duplicates := duplicates + 1;
      }
    }

    /** The handler for one request on an accepted connection, as written: it always forwards. */
    method Handle(conn: int, body: String, upstream: Request -> Option<String>) returns (r: Exchange)
      requires conn in contexts
      ensures r == Forward(contexts[conn], port, secret, body, upstream)
    {
      var credentials := contexts[conn];
      var request := Request("POST", UriFor(port, credentials.uid), [("authorization", "Bearer " + secret)], body);
      var reply := upstream(request);
      var response := Response([("Content-Type", "text/plain"), ("Transfer-Encoding", " chunked")], "");
      if reply.Some? {
        response := response.(body := reply.value);
      }
      r := Exchange(request, response);
    }

    /** The corrected handler: a connection whose credentials were not read is refused. */
    method HandleFixed(conn: int, body: String, upstream: Request -> Option<String>) returns (r: Result<Exchange>)
      requires conn in contexts
      ensures r == ForwardFixed(if conn in unread then None else Some(contexts[conn]), port, secret, body, upstream)
    {
      if conn in unread {
        return Err(NoCredentials);
      }
      var exchange := Handle(conn, body, upstream);
      r := Ok(exchange);
    }
  }

  /**
   * Every request on a connection is forwarded for the uid read when the connection was
   * accepted, whatever it carries and however many came before it.
   */
  lemma SameConnectionSameUser(creds: Ucred, port: String, secret: String, a: String, b: String,
                               up1: Request -> Option<String>, up2: Request -> Option<String>)
    ensures Forward(creds, port, secret, a, up1).request.uri == Forward(creds, port, secret, b, up2).request.uri
            == UriFor(port, creds.uid)
  {
  }
}
