/**
 * The older copy of `extractInfo` in `src/nginx/index.js`: the executor's function with the
 * passenger key list stopping before `sticky_sessions` and no certificate fields. The two agree
 * on every block that holds no `passenger_sticky_sessions` directive.
 */
module NginxOldCopy {
  import opened Base
  import opened Strings
  import opened Nginx

  /** A block with no `passenger_sticky_sessions` directive at any depth. */
  predicate NoSticky(n: Node)
    decreases n
  {
    Named(n.children, "passenger_sticky_sessions") == []
    && forall i :: 0 <= i < |n.children| ==> NoSticky(n.children[i].1)
  }

  lemma OldKeys()
    ensures |OldPassengerKeys| == 13 && |PassengerKeys| == 14
    ensures PassengerKeys[13] == "sticky_sessions"
    ensures forall i :: 0 <= i < 13 ==> OldPassengerKeys[i] == PassengerKeys[i]
  {
  }

  /** The passenger settings from key `i` on agree when the last key has no directive. */
  lemma {:induction false} OldPassenger(n: Node, i: nat, base: nat)
    requires Named(n.children, "passenger_sticky_sessions") == [] && i <= 13
    ensures ExtractPassenger(n, OldPassengerKeys, i, base) == ExtractPassenger(n, PassengerKeys, i, base)
    decreases 13 - i
  {
    OldKeys();
    if i < 13 {
      OldPassenger(n, i + 1, base);
    } else {
      assert "passenger_" + PassengerKeys[13] == "passenger_sticky_sessions";
      assert PassengerEntry(n, PassengerKeys[13], base) == Ok(None);
    }
  }

  /** The two copies read the same location from `n`. */
  predicate LocAgrees(n: Node, base: nat)
  {
    ExtractLoc(n, base, OldPassengerKeys) == ExtractLoc(n, base, PassengerKeys)
  }

  lemma {:induction false} OldLoc(n: Node, base: nat)
    requires NoSticky(n)
    ensures LocAgrees(n, base)
    decreases n, 1
  {
    OldPassenger(n, 0, base);
    OldLocList(n, Named(n.children, "location"), 0, base);
    SameLoc(n, base, OldPassengerKeys, PassengerKeys);
  }

  /** Two key lists that read the same passenger settings and nested locations read the same location. */
  lemma SameLoc(n: Node, base: nat, a: seq<String>, b: seq<String>)
    requires ExtractPassenger(n, a, 0, base) == ExtractPassenger(n, b, 0, base)
    requires ExtractLocList(n, Named(n.children, "location"), 0, base, a)
      == ExtractLocList(n, Named(n.children, "location"), 0, base, b)
    ensures ExtractLoc(n, base, a) == ExtractLoc(n, base, b)
  {
  }

  lemma {:induction false} OldLocList(n: Node, ls: seq<Node>, i: nat, base: nat)
    requires NoSticky(n) && ls == Named(n.children, "location")
    ensures ExtractLocList(n, ls, i, base, OldPassengerKeys) == ExtractLocList(n, ls, i, base, PassengerKeys)
    decreases n, 0, |ls| - i
  {
    if i < |ls| {
      var j := LocNoSticky(n, ls, i);
      OldLoc(ls[i], base);
      OldLocList(n, ls, i + 1, base);
      OldLocListStep(n, ls, i, base);
    }
  }

  /** When the copies agree on a nested location and on the later ones, they agree from it on. */
  lemma OldLocListStep(n: Node, ls: seq<Node>, i: nat, base: nat)
    requires ls == Named(n.children, "location") && i < |ls|
    requires LocAgrees(ls[i], base)
    requires ExtractLocList(n, ls, i + 1, base, OldPassengerKeys) == ExtractLocList(n, ls, i + 1, base, PassengerKeys)
    ensures ExtractLocList(n, ls, i, base, OldPassengerKeys) == ExtractLocList(n, ls, i, base, PassengerKeys)
  {
  }

  /** A nested location of a block without `passenger_sticky_sessions` has none either. */
  lemma LocNoSticky(n: Node, ls: seq<Node>, i: nat) returns (j: nat)
    requires NoSticky(n) && ls == Named(n.children, "location") && i < |ls|
    ensures j < |n.children| && n.children[j] == ("location", ls[i])
    ensures NoSticky(ls[i])
  {
    NamedFrom(n.children, "location", i);
    j :| 0 <= j < |n.children| && n.children[j] == ("location", ls[i]);
    assert NoSticky(n.children[j].1);
  }

  /**
   * On a block without `passenger_sticky_sessions`, the older copy returns what the executor's
   * `extractInfo` returns when it does not read certificates.
   */
  lemma OldCopyAgrees(n: Node, domain: String)
    requires NoSticky(n)
    ensures ExtractInfoOf(n, domain, OldPassengerKeys, false) == ExtractInfoOf(n, domain, PassengerKeys, false)
  {
    var root := match Dir(n, "root")
      case None => Ok("")
      case Some(l) => if l[0].value.None? then Err(TypeError) else Ok(l[0].value.value);
    if root.Ok? {
      OldLoc(n, |HomeBase(UserOf(root.value))|);
    }
  }

  /**
   * Reading the certificates only adds them: whenever the executor's `extractInfo` succeeds,
   * the version without certificates gives the same record with no certificate pair.
   */
  lemma CertsOnlyAdded(n: Node, domain: String, keys: seq<String>)
    ensures ExtractInfoOf(n, domain, keys, true).Ok? ==>
      ExtractInfoOf(n, domain, keys, false) == Ok(ExtractInfoOf(n, domain, keys, true).value.(certs := None))
  {
  }
}
