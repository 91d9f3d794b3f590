/**
 * The Redis executor (src/executor/redis.js): accounts are ACL users whose keys are confined to
 * `name:*`, and the file of `uid:name` lines records which system user owns which account.
 *
 * The Redis client (password generation, ACL calls, the key-deleting script) and `id -u` are
 * left out: the generated password and the uid are parameters, and each outcome records what
 * would be sent to Redis.
 */
module Redis {
  import opened Base
  import opened Strings
  import opened LineFile

  // ---------------------------------------------------------------------------------------------
  // ACL rules (redis.js:9-12)
  // ---------------------------------------------------------------------------------------------

  /** The command categories every account gets, after its password and key/channel patterns. */
  const AclTail: String := "sanitize-payload -@all +@connection +@read +@write +@keyspace -KEYS "
                           + "+@transaction +@geo +@hash +@set +@sortedset +@bitmap +@pubsub"

  /** `aclSetUser(user, pass)`. */
  function AclRules(user: String, pass: String): String
  {
    ">" + pass + " ~" + user + ":* &" + user + ": " + AclTail
  }

  /**
   * Split into words, the rules set the password, confine keys to `user:*` and channels to
   * `user:`, and then list the same categories for every account.
   */
  lemma AclRulesWords(user: String, pass: String)
    requires ' ' !in user && ' ' !in pass
    ensures Split(AclRules(user, pass), ' ')
            == [">" + pass, "~" + user + ":*", "&" + user + ":"] + Split(AclTail, ' ')
  {
    var w0, w1, w2 := ">" + pass, "~" + user + ":*", "&" + user + ":";
    assert ' ' !in w0 && ' ' !in w1 && ' ' !in w2;
    AclRulesShape(user, pass, AclTail);
    SplitThree(w0, w1, w2, AclTail, ' ');
  }

  lemma AclRulesShape(user: String, pass: String, tail: String)
    requires tail == AclTail
    ensures AclRules(user, pass)
            == (">" + pass) + [' '] + (("~" + user + ":*") + [' '] + (("&" + user + ":") + [' '] + tail))
  {
    assert " ~" == [' '] + "~";
    assert ":* &" == ":*" + [' '] + "&";
    assert ": " == ":" + [' '];
  }


  // ---------------------------------------------------------------------------------------------
  // The ownership file (redis.js:64-76, 104-111, 141-148)
  // ---------------------------------------------------------------------------------------------

  /** A line read as `uid:name`; a line that does not split into exactly two parts is no entry. */
  function Entry(line: String): (r: Option<(String, String)>)
    ensures r.Some? ==> line == r.value.0 + ":" + r.value.1
  {
    var parts := Split(line, ':');
    if |parts| == 2 then
      JoinSplit(line, ':');
      Some((parts[0], parts[1]))
    else None
  }

  /** `uid:name` reads back as that pair when neither part holds a ':'. */
  lemma EntryOf(uid: String, name: String)
    requires ':' !in uid && ':' !in name
    ensures Entry(uid + ":" + name) == Some((uid, name))
  {
    SplitNoSeparator(name, ':');
    assert uid + ":" + name == uid + [':'] + name;
    SplitAtFirst(uid, ':', name);
  }

  /** The owner of the first entry naming `name`. */
  function Owner(lines: seq<String>, name: String): (r: Option<String>)
    ensures r.Some? ==> exists i :: 0 <= i < |lines| && Entry(lines[i]) == Some((r.value, name))
    ensures r.None? ==> forall i :: 0 <= i < |lines| && Entry(lines[i]).Some? ==> Entry(lines[i]).value.1 != name
  {
    if |lines| == 0 then None
    else
      var e := Entry(lines[0]);
      if e.Some? && e.value.1 == name then Some(e.value.0)
      else Owner(lines[1..], name)
  }

  /** A name no entry holds is owned by whoever it is appended for. */
  lemma {:induction false} OwnerAppended(lines: seq<String>, name: String, uid: String)
    requires Owner(lines, name).None?
    requires Entry(uid + ":" + name) == Some((uid, name))
    ensures Owner(lines + [uid + ":" + name], name) == Some(uid)
  {
    if |lines| > 0 {
      assert (lines + [uid + ":" + name])[1..] == lines[1..] + [uid + ":" + name];
      OwnerAppended(lines[1..], name, uid);
    }
  }

  /** The index of the line `uid:name`, or -1. */
  function EntryIndex(lines: seq<String>, uid: String, name: String): (i: int)
    ensures -1 <= i < |lines|
    ensures i >= 0 ==> Entry(lines[i]) == Some((uid, name))
                       && forall j :: 0 <= j < i ==> Entry(lines[j]) != Some((uid, name))
    ensures i == -1 <==> forall j :: 0 <= j < |lines| ==> Entry(lines[j]) != Some((uid, name))
  {
    if |lines| == 0 then -1
    else if Entry(lines[0]) == Some((uid, name)) then 0
    else
      var k := EntryIndex(lines[1..], uid, name);
      if k < 0 then -1 else k + 1
  }

  /** The `some` callback run down the lines: whether the name is taken, and by this uid. */
  method FindOwner(lines: seq<String>, uid: String, name: String) returns (found: bool, existsUserSame: bool)
    ensures found <==> Owner(lines, name).Some?
    ensures existsUserSame <==> Owner(lines, name) == Some(uid)
  {
    existsUserSame := false;
    var i := 0;
    while i < |lines|
      invariant 0 <= i <= |lines|
      invariant Owner(lines, name) == Owner(lines[i..], name)
      invariant !existsUserSame
    {
      assert lines[i..][1..] == lines[i + 1..];
      var parts := Split(lines[i], ':');
      if |parts| == 2 && parts[1] == name {
        existsUserSame := parts[0] == uid;
        return true, existsUserSame;
      }
      i := i + 1;
    }
    return false, false;
  }

  /** The `findIndex` of the line `uid:name`. */
  method FindEntry(lines: seq<String>, uid: String, name: String) returns (i: int)
    ensures i == EntryIndex(lines, uid, name)
  {
    i := 0;
    while i < |lines|
      invariant 0 <= i <= |lines|
      invariant forall j :: 0 <= j < i ==> Entry(lines[j]) != Some((uid, name))
    {
      var parts := Split(lines[i], ':');
      if |parts| == 2 && parts[0] == uid && parts[1] == name {
        return i;
      }
      i := i + 1;
    }
    return -1;
  }

  // ---------------------------------------------------------------------------------------------
  // show, add, del, passwd (redis.js:46-155)
  // ---------------------------------------------------------------------------------------------

  /**
   * What an operation returns and does: its message, the new ownership file if it writes one,
   * the ACL rules it sets for the account (empty when none), and the key pattern it deletes.
   */
  datatype Outcome = Outcome(message: String, written: Option<String>, acl: seq<String>, flushed: Option<String>)

  /** `show`: every line of the listing with its `uid:` prefix cut off. */
  function Show(stdout: String, uid: String): (r: seq<String>)
    ensures |r| == |Lines(stdout)|
    ensures forall i :: 0 <= i < |r| && StartsWith(Lines(stdout)[i], uid + ":")
                        ==> Lines(stdout)[i] == uid + ":" + r[i]
  {
    var lines := Lines(stdout);
    var r := MapSeq(lines, (x: String) => if |uid| + 1 <= |x| then x[|uid| + 1..] else "");
    assert forall i :: 0 <= i < |r| && StartsWith(lines[i], uid + ":") ==> lines[i] == uid + ":" + r[i] by {
      forall i | 0 <= i < |r| && StartsWith(lines[i], uid + ":")
        ensures lines[i] == uid + ":" + r[i]
      {
        assert lines[i] == lines[i][..|uid| + 1] + lines[i][|uid| + 1..];
      }
    }
    r
  }

  /**
   * `add`: a name already owned by this uid is reported, one owned by another uid is an error,
   * and a free name is appended as `uid:name` and given its ACL rules with the new password.
   */
  function AddSpec(content: String, uid: String, name: String, pass: String): (r: Result<Outcome>)
    ensures r.Err? <==> Owner(Lines(content), name).Some? && Owner(Lines(content), name) != Some(uid)
    ensures r.Ok? && r.value.written.Some? <==> Owner(Lines(content), name).None?
  {
    var lines := Lines(content);
    var owner := Owner(lines, name);
    if owner == Some(uid) then Ok(Outcome("This account is already exists on this domain", None, [], None))
    else if owner.Some? then Err("Error: This account is already exists and belongs to other domain")
    else Ok(Outcome("Done created account " + name + ", password is:\n" + pass,
                    Some(Render(lines + [uid + ":" + name])), Split(AclRules(name, pass), ' '), None))
  }

  method Add(content: String, uid: String, name: String, pass: String) returns (r: Result<Outcome>)
    ensures r == AddSpec(content, uid, name, pass)
  {
    var lines := Lines(content);
    var found, existsUserSame := FindOwner(lines, uid, name);
    if found {
      if existsUserSame {
        return Ok(Outcome("This account is already exists on this domain", None, [], None));
      }
      return Err("Error: This account is already exists and belongs to other domain");
    }
    lines := lines + [uid + ":" + name];
    return Ok(Outcome("Done created account " + name + ", password is:\n" + pass,
                      Some(Render(lines)), Split(AclRules(name, pass), ' '), None));
  }

  /** A well-formed account line: both parts non-empty, free of ':' and newlines, trimmed at the ends. */
  predicate Plain(uid: String, name: String)
  {
    ':' !in uid && ':' !in name && Solid(uid + ":" + name)
  }

  /** After an add writes the file, the file names the uid as the owner of the account. */
  lemma AddThenOwned(content: String, uid: String, name: String, pass: String)
    requires Plain(uid, name)
    requires AddSpec(content, uid, name, pass).Ok? && AddSpec(content, uid, name, pass).value.written.Some?
    ensures Owner(Lines(AddSpec(content, uid, name, pass).value.written.value), name) == Some(uid)
  {
    var line := uid + ":" + name;
    EntryOf(uid, name);
    ReadAppended(content, [line]);
    if Trim(content) == "" {
      assert Owner([line], name) == Some(uid);
    } else {
      OwnerAppended(Lines(content), name, uid);
    }
  }

  /** A second add of the same account by the same uid changes nothing. */
  lemma AddTwiceUnchanged(content: String, uid: String, name: String, pass: String, pass2: String)
    requires Plain(uid, name)
    requires AddSpec(content, uid, name, pass).Ok? && AddSpec(content, uid, name, pass).value.written.Some?
    ensures var w := AddSpec(content, uid, name, pass).value.written.value;
            AddSpec(w, uid, name, pass2) == Ok(Outcome("This account is already exists on this domain", None, [], None))
  {
    AddThenOwned(content, uid, name, pass);
  }

  /**
   * The key pattern `del` flushes. As written it is the system user's (`fixed` false); the keys
   * the account can hold are those of its own name (`fixed` true).
   */
  function FlushPattern(user: String, name: String, fixed: bool): String
  {
    (if fixed then name else user) + ":*"
  }

  /**
   * `del`: the first `uid:name` line is removed and the account dropped, then its keys flushed;
   * an account this uid does not own is an error.
   */
  function DelSpec(content: String, uid: String, user: String, name: String, fixed: bool): (r: Result<Outcome>)
    ensures r.Err? <==> EntryIndex(Lines(content), uid, name) == -1
    ensures r.Ok? ==> r.value.flushed == Some(FlushPattern(user, name, fixed))
  {
    var lines := Lines(content);
    var i := EntryIndex(lines, uid, name);
    if i == -1 then Err("Error: This user and key is not exists")
    else
      Ok(Outcome("Done delete account " + name, Some(Render(RemoveAt(lines, i))), [],
                 Some(FlushPattern(user, name, fixed))))
  }

  /** The line `del` removes is the first line equal to `uid:name`, and only that line. */
  lemma DelRemovesFirst(content: String, uid: String, user: String, name: String, fixed: bool)
    requires ':' !in uid && ':' !in name
    requires DelSpec(content, uid, user, name, fixed).Ok?
    ensures DelSpec(content, uid, user, name, fixed).value.written
            == Some(Render(RemoveFirst(Lines(content), uid + ":" + name)))
  {
    var lines := Lines(content);
    var i := EntryIndex(lines, uid, name);
    var x := uid + ":" + name;
    EntryOf(uid, name);
    assert lines[i] == x;
    assert x !in lines[..i] by {
      forall j | 0 <= j < i ensures lines[..i][j] != x {
        assert Entry(lines[j]) != Some((uid, name));
      }
    }
    RemoveFirstAt(lines, x, i);
  }

  method Del(content: String, uid: String, user: String, name: String) returns (r: Result<Outcome>)
    ensures r == DelSpec(content, uid, user, name, true)
  {
    var lines := Lines(content);
    var i := FindEntry(lines, uid, name);
    if i == -1 {
      return Err("Error: This user and key is not exists");
    }
    lines := lines[..i] + lines[i + 1..];
    return Ok(Outcome("Done delete account " + name, Some(Render(lines)), [], Some(FlushPattern(user, name, true))));
  }

  /** With the intended pattern, `del` flushes exactly the keys the account's rules allow it. */
  lemma DelFlushesAccountKeys(user: String, name: String, pass: String)
    requires ' ' !in name && ' ' !in pass
    ensures var w := Split(AclRules(name, pass), ' ');
            |w| > 1 && "~" + FlushPattern(user, name, true) == w[1]
  {
    AclRulesWords(name, pass);
  }

  /**
   * As written, `del` flushes the keys under the system user's name, never those the account's
   * rules allow it unless the account happens to share that name.
   */
  lemma DelFlushesWrongKeysAsWritten(user: String, name: String, pass: String)
    requires ' ' !in name && ' ' !in pass && user != name
    ensures var w := Split(AclRules(name, pass), ' ');
            |w| > 1 && "~" + FlushPattern(user, name, false) != w[1]
  {
    AclRulesWords(name, pass);
    var a, b := "~" + user + ":*", "~" + name + ":*";
    assert a[1..|a| - 2] == user;
    assert b[1..|b| - 2] == name;
  }

  /** An add followed by a delete of the same account restores the lines of a non-empty file. */
  lemma AddThenDel(content: String, uid: String, user: String, name: String, pass: String)
    requires Plain(uid, name) && Trim(content) != ""
    requires AddSpec(content, uid, name, pass).Ok? && AddSpec(content, uid, name, pass).value.written.Some?
    ensures var w := AddSpec(content, uid, name, pass).value.written.value;
            DelSpec(w, uid, user, name, true).Ok?
            && DelSpec(w, uid, user, name, true).value.written == Some(Render(Lines(content)))
  {
    var line := uid + ":" + name;
    var l := Lines(content);
    var w := AddSpec(content, uid, name, pass).value.written.value;
    EntryOf(uid, name);
    ReadAppended(content, [line]);
    assert Lines(w) == l + [line];
    assert (l + [line])[|l|] == line;
    AbsentLine(l, uid, name);
    RemoveFirstAppended(l, line);
  }

  /** A name with no owner has no `uid:name` line. */
  lemma AbsentLine(lines: seq<String>, uid: String, name: String)
    requires ':' !in uid && ':' !in name
    requires Owner(lines, name).None?
    ensures uid + ":" + name !in lines
  {
    EntryOf(uid, name);
  }

  /**
   * `passwd`: an account this uid owns gets the new password; otherwise an error. The file is
   * never written.
   */
  function PasswdSpec(content: String, uid: String, name: String, newpass: String): (r: Result<Outcome>)
    ensures r.Err? <==> EntryIndex(Lines(content), uid, name) == -1
    ensures r.Ok? ==> r.value.written.None? && r.value.acl == [">" + newpass]
  {
    if EntryIndex(Lines(content), uid, name) == -1 then Err("Error: This user and key is not exists")
    else Ok(Outcome("Done set account password " + name, None, [">" + newpass], None))
  }

  method Passwd(content: String, uid: String, name: String, newpass: String) returns (r: Result<Outcome>)
    ensures r == PasswdSpec(content, uid, name, newpass)
  {
    var lines := Lines(content);
    var i := FindEntry(lines, uid, name);
    if i == -1 {
      return Err("Error: This user and key is not exists");
    }
    return Ok(Outcome("Done set account password " + name, None, [">" + newpass], None));
  }
}
