/**
 * The request guards of the HTTP service (src/util.js): the bearer-token and address check every
 * protected route passes first, and the checks that required query or body fields are set.
 *
 * The environment (SECRET, ALLOW_IP) and the request (its authorization header, address, query
 * and body) are parameters. A guard's answer is what it does to the request: hand it on to the
 * next handler, or send a status with a body.
 */
module Util {
  import opened Base
  import opened Strings

  /** A query or body field, as the parsed request holds it. */
  datatype Value = Str(s: String) | Num(n: int) | Bool(b: bool) | Null | Structured

  /** `!!v`, with `None` for `undefined`: the empty string, zero, false and null are falsy. */
  predicate Truthy(v: Option<Value>)
  {
    match v
    case None => false
    case Some(Str(s)) => s != ""
    case Some(Num(n)) => n != 0
    case Some(Bool(b)) => b
    case Some(Null) => false
    case Some(Structured) => true
  }

  datatype Action = Next | Send(status: int, body: String)

  /** `Bearer ${process.env.SECRET}`: an unset secret is written as `undefined`. */
  function TokenSecret(secret: Option<String>): (r: String)
    ensures StartsWith(r, "Bearer ")
  {
    "Bearer " + (if secret.Some? then secret.value else "undefined")
  }

  /** `allowIps`: unset or empty means no list at all; otherwise the comma-separated addresses. */
  function AllowIps(env: Option<String>): (r: Option<set<String>>)
    ensures r.None? <==> env.None? || env.value == ""
    ensures r.Some? ==> forall ip :: ip in r.value <==> ip in Split(env.value, ',')
  {
    if env.None? || env.value == "" then None
    else Some(set ip | ip in Split(env.value, ','))
  }

  /** `!allowIps || allowIps[req.ip]`. */
  predicate IpAllowed(allow: Option<set<String>>, ip: String)
  {
    allow.None? || ip in allow.value
  }

  /** The token matches and the address passes. */
  predicate Authorized(auth: Option<String>, ip: String, secret: Option<String>, allowEnv: Option<String>)
  {
    auth == Some(TokenSecret(secret)) && IpAllowed(AllowIps(allowEnv), ip)
  }

  /**
   * `checkAuth` as written: the 403 after the `if` has no `else`, so it is sent on every path,
   * after the next handler has been started when the request is authorized.
   */
  function CheckAuthAsWritten(auth: Option<String>, ip: String, secret: Option<String>, allowEnv: Option<String>)
    : seq<Action>
  {
    if Authorized(auth, ip, secret, allowEnv) then [Next, Send(403, "Forbidden")] else [Send(403, "Forbidden")]
  }

  /** Every request, authorized or not, is answered 403 by `checkAuth` as written. */
  lemma AuthAsWrittenForbidsAll(auth: Option<String>, ip: String, secret: Option<String>, allowEnv: Option<String>)
    ensures Send(403, "Forbidden") in CheckAuthAsWritten(auth, ip, secret, allowEnv)
    ensures Authorized(auth, ip, secret, allowEnv) ==> |CheckAuthAsWritten(auth, ip, secret, allowEnv)| == 2
  {
  }

  /** A concrete request with the right token from an allowed address that still gets the 403. */
  lemma AuthAsWrittenExample()
    ensures CheckAuthAsWritten(Some("Bearer s3cret"), "10.0.0.1", Some("s3cret"), None)
            == [Next, Send(403, "Forbidden")]
  {
    assert TokenSecret(Some("s3cret")) == "Bearer s3cret";
  }

  /** `checkAuth` as intended: the next handler for an authorized request, 403 for any other. */
  function CheckAuth(auth: Option<String>, ip: String, secret: Option<String>, allowEnv: Option<String>): (r: Action)
  {
    if Authorized(auth, ip, secret, allowEnv) then Next else Send(403, "Forbidden")
  }

  /**
   * A request passes exactly when it carries the bearer token and, when an address list is set,
   * comes from an address on it; every other request is answered 403 and goes no further.
   */
  lemma CheckAuthPasses(auth: Option<String>, ip: String, secret: Option<String>, allowEnv: Option<String>)
    ensures var r := CheckAuth(auth, ip, secret, allowEnv);
            (r == Next <==> auth == Some(TokenSecret(secret))
                            && (allowEnv.None? || allowEnv.value == "" || ip in Split(allowEnv.value, ',')))
            && (r != Next ==> r == Send(403, "Forbidden"))
  {
  }

  /** With no secret configured, the literal header `Bearer undefined` is accepted from anywhere. */
  lemma UnsetSecretAccepted(ip: String)
    ensures CheckAuth(Some("Bearer undefined"), ip, None, None) == Next
  {
    assert TokenSecret(None) == "Bearer undefined";
  }

  /**
   * The per-field loop of `checkGet` and `checkPost`: 400 naming the first field, in list order,
   * that is missing or falsy; the next handler when every field is set.
   */
  function CheckFields(args: seq<String>, fields: seq<(String, Value)>): (r: Action)
    ensures r == Next <==> forall i :: 0 <= i < |args| ==> Truthy(Get(fields, args[i]))
  {
    if |args| == 0 then Next
    else if !Truthy(Get(fields, args[0])) then Send(400, args[0] + " is required")
    else
      assert forall i :: 1 <= i < |args| ==> args[i] == args[1..][i - 1];
      CheckFields(args[1..], fields)
  }

  /** A refusal names the first field, in list order, that is missing or falsy. */
  lemma {:induction false} CheckFieldsFirst(args: seq<String>, fields: seq<(String, Value)>)
    requires CheckFields(args, fields) != Next
    ensures exists i :: 0 <= i < |args| && !Truthy(Get(fields, args[i]))
                        && (forall j :: 0 <= j < i ==> Truthy(Get(fields, args[j])))
                        && CheckFields(args, fields) == Send(400, args[i] + " is required")
  {
    if Truthy(Get(fields, args[0])) {
      CheckFieldsFirst(args[1..], fields);
      var i :| 0 <= i < |args[1..]| && !Truthy(Get(fields, args[1..][i]))
               && (forall j :: 0 <= j < i ==> Truthy(Get(fields, args[1..][j])))
               && CheckFields(args[1..], fields) == Send(400, args[1..][i] + " is required");
      assert forall j :: 0 <= j < i + 1 ==> Truthy(Get(fields, args[j]));
      assert args[i + 1] == args[1..][i];
    }
  }

  /** `checkGet(args)` on the request's query. */
  function CheckGet(args: seq<String>, query: seq<(String, Value)>): (r: Action)
  {
    CheckFields(args, query)
  }

  /** `checkPost(args)`: a request without a body is refused before any field is looked at. */
  function CheckPost(args: seq<String>, body: Option<seq<(String, Value)>>): (r: Action)
    ensures body.None? ==> r == Send(400, "missing post data")
    ensures body.Some? ==> r == CheckGet(args, body.value)
  {
    if body.None? then Send(400, "missing post data") else CheckFields(args, body.value)
  }

  /** A check with more fields required passes only where the check with fewer passes. */
  lemma {:induction false} CheckFieldsMore(args: seq<String>, more: seq<String>, fields: seq<(String, Value)>)
    ensures CheckFields(args + more, fields) == Next
            <==> CheckFields(args, fields) == Next && CheckFields(more, fields) == Next
  {
    var all := args + more;
    assert forall i :: 0 <= i < |args| ==> all[i] == args[i];
    assert forall i :: 0 <= i < |more| ==> all[|args| + i] == more[i];
    if CheckFields(args, fields) == Next && CheckFields(more, fields) == Next {
      forall i | 0 <= i < |all| ensures Truthy(Get(fields, all[i])) {
        if i >= |args| {
          assert all[i] == more[i - |args|];
        }
      }
    }
  }
}
