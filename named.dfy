/**
 * `NamedExecutor` of `src/executor/named.js`: edits the records of a BIND zone.
 *
 * A zone file is held as its parsed form: one list of records per record type, keyed by the
 * lower-case type name, and the SOA serial. `spawnSudoUtil('NAMED_GET')` and `NAMED_SET` become
 * reading and replacing the `live` zone of the executor class; producing the zone file's text
 * (`generate`) is a parameter where a reply quotes it.
 */
module Named {
  import opened Base
  import opened Strings

  // ---------------------------------------------------------------------------------------------
  // Record types and record constructors
  // ---------------------------------------------------------------------------------------------

  /** The record types the executor edits, as `arrayKey`'s keys. */
  const RecordTypes: seq<String> := ["A", "AAAA", "NS", "CNAME", "MX", "PTR", "TXT", "SRV", "SPF", "CAA"]

  /** `arrayKey[type]`: the name of the zone's list for an upper-case record type. */
  function ArrayKey(t: String): (r: Option<String>)
    ensures r.Some? <==> t in RecordTypes
    ensures r.Some? ==> r.value == Lower(t)
  {
    if t == "A" then Some("a")
    else if t == "AAAA" then Some("aaaa")
    else if t == "NS" then Some("ns")
    else if t == "CNAME" then Some("cname")
    else if t == "MX" then Some("mx")
    else if t == "PTR" then Some("ptr")
    else if t == "TXT" then Some("txt")
    else if t == "SRV" then Some("srv")
    else if t == "SPF" then Some("spf")
    else if t == "CAA" then Some("caa")
    else None
  }

  /**
   * The record objects `mapKey` builds. Arguments the value does not supply are JavaScript's
   * `undefined` (`None`); a number field is `parseInt(x, 10)`, where `None` is NaN.
   */
  datatype ZoneRecord =
    | Addr(name: String, ip: String)                     // a, aaaa
    | Host(name: String, host: String)                   // ns, ptr
    | Cname(name: String, alias: String)
    | Mx(name: String, preference: Option<int>, mxHost: Option<String>)
    | Txt(name: String, txt: String)
    | Srv(name: String, priority: Option<int>, weight: Option<int>, port: Option<int>, target: Option<String>)
    | Spf(name: String, data: String)
    | Caa(name: String, flags: Option<int>, tag: Option<String>, value: String)

  /** The `i`-th argument after the name, `undefined` past the end. */
  function Arg(tokens: seq<String>, i: nat): Option<String>
  {
    if i < |tokens| then Some(tokens[i]) else None
  }

  /** `parseInt(arg, 10)`, NaN for a missing argument. */
  function IntArg(tokens: seq<String>, i: nat): Option<int>
  {
    if i < |tokens| then ParseInt10(tokens[i]) else None
  }

  /** The characters `.` in a JavaScript regular expression does not match. */
  predicate IsLineTerminator(c: char)
  {
    c == '\n' || c == '\r' || c == '\U{2028}' || c == '\U{2029}'
  }

  /** `value.replace(/^"(.+?)"$/, "$1")`: one pair of surrounding double quotes removed. */
  function StripQuotes(v: String): (r: String)
    ensures r == v || (|r| > 0 && v == "\"" + r + "\"")
  {
    if |v| >= 3 && v[0] == '"' && v[|v| - 1] == '"'
      && forall i :: 1 <= i < |v| - 1 ==> !IsLineTerminator(v[i])
    then
      assert v == "\"" + v[1..|v| - 1] + "\"";
      v[1..|v| - 1]
    else v
  }

  const NotAFunction: String := "TypeError: mapKey[type] is not a function"
  const NoCaaValue: String := "TypeError: Cannot read properties of undefined (reading 'replace')"

  /**
   * `mapKey[key](name, ...value.split(' '))`: the record a value describes, or the TypeError
   * thrown when `key` is not one of `mapKey`'s lower-case names or a CAA value lacks its third part.
   */
  function MakeRecord(key: String, name: String, value: String): Result<ZoneRecord>
  {
    var t := Split(value, ' ');
    if key == "a" || key == "aaaa" then Ok(Addr(name, t[0]))
    else if key == "ns" || key == "ptr" then Ok(Host(name, t[0]))
    else if key == "cname" then Ok(Cname(name, t[0]))
    else if key == "mx" then Ok(Mx(name, IntArg(t, 0), Arg(t, 1)))
    else if key == "txt" then Ok(Txt(name, Join(t, " ")))
    else if key == "srv" then Ok(Srv(name, IntArg(t, 0), IntArg(t, 1), IntArg(t, 2), Arg(t, 3)))
    else if key == "spf" then Ok(Spf(name, t[0]))
    else if key == "caa" then
      if |t| < 3 then Err(NoCaaValue) else Ok(Caa(name, IntArg(t, 0), Arg(t, 1), StripQuotes(t[2])))
    else Err(NotAFunction)
  }

  /** A TXT record carries the whole value, spaces included. */
  lemma TxtKeepsValue(name: String, value: String)
    ensures MakeRecord("txt", name, value) == Ok(Txt(name, value))
  {
    JoinSplit(value, ' ');
  }

  /** `a b`: two space-free fields joined by one space split back into the two fields. */
  lemma SplitFields(fields: seq<String>)
    requires |fields| > 0
    requires forall i :: 0 <= i < |fields| ==> ' ' !in fields[i]
    ensures Split(Join(fields, " "), ' ') == fields
  {
    SplitJoin(fields, ' ');
  }

  lemma JoinTwo(a: String, b: String)
    ensures Join([a, b], " ") == a + " " + b
  {
    assert [a, b][1..] == [b];
  }

  lemma JoinThree(a: String, b: String, c: String)
    ensures Join([a, b, c], " ") == a + " " + b + " " + c
  {
    assert [a, b, c][1..] == [b, c];
    JoinTwo(b, c);
  }

  lemma JoinFour(a: String, b: String, c: String, d: String)
    ensures Join([a, b, c, d], " ") == a + " " + b + " " + c + " " + d
  {
    assert [a, b, c, d][1..] == [b, c, d];
    JoinThree(b, c, d);
  }

  /** The text of an MX record's data: preference, then exchange host (section 3.3.9 of RFC 1035). */
  function MxValue(preference: nat, host: String): String
  {
    NatToString(preference) + " " + host
  }

  lemma MxRoundTrip(name: String, preference: nat, host: String)
    requires ' ' !in host
    ensures MakeRecord("mx", name, MxValue(preference, host)) == Ok(Mx(name, Some(preference), Some(host)))
  {
    var p := NatToString(preference);
    NumeralNoSpace(preference);
    JoinTwo(p, host);
    SplitFields([p, host]);
    ParseNatToString(preference);
  }

  /** The text of an SRV record's data: priority, weight, port, target (RFC 2782). */
  function SrvValue(priority: nat, weight: nat, port: nat, target: String): String
  {
    NatToString(priority) + " " + NatToString(weight) + " " + NatToString(port) + " " + target
  }

  lemma NumeralNoSpace(n: nat)
    ensures ' ' !in NatToString(n)
  {
    var p := NatToString(n);
    forall i | 0 <= i < |p|
      ensures p[i] != ' '
    {
      assert IsDigit(p[i]);
    }
  }

  lemma SrvRoundTrip(name: String, priority: nat, weight: nat, port: nat, target: String)
    requires ' ' !in target
    ensures MakeRecord("srv", name, SrvValue(priority, weight, port, target))
      == Ok(Srv(name, Some(priority), Some(weight), Some(port), Some(target)))
  {
    var fields := [NatToString(priority), NatToString(weight), NatToString(port), target];
    NumeralNoSpace(priority);
    NumeralNoSpace(weight);
    NumeralNoSpace(port);
    JoinFour(fields[0], fields[1], fields[2], target);
    SplitFields(fields);
    MakeSrv(name, SrvValue(priority, weight, port, target));
    ParseNatToString(priority);
    ParseNatToString(weight);
    ParseNatToString(port);
  }

  lemma MakeSrv(name: String, value: String)
    ensures var t := Split(value, ' ');
            MakeRecord("srv", name, value) == Ok(Srv(name, IntArg(t, 0), IntArg(t, 1), IntArg(t, 2), Arg(t, 3)))
  {
  }

  /** The text of a CAA record's data: flags, tag, quoted value (section 4.1 of RFC 8659). */
  function CaaValue(flags: nat, tag: String, value: String): String
  {
    NatToString(flags) + " " + tag + " " + "\"" + value + "\""
  }

  lemma CaaRoundTrip(name: String, flags: nat, tag: String, value: String)
    requires ' ' !in tag && ' ' !in value && |value| > 0
    requires forall i :: 0 <= i < |value| ==> !IsLineTerminator(value[i])
    ensures MakeRecord("caa", name, CaaValue(flags, tag, value)) == Ok(Caa(name, Some(flags), Some(tag), value))
  {
    var quoted := "\"" + value + "\"";
    var fields := [NatToString(flags), tag, quoted];
    NumeralNoSpace(flags);
    assert ' ' !in quoted;
    JoinThree(fields[0], tag, quoted);
    assert CaaValue(flags, tag, value) == fields[0] + " " + tag + " " + quoted;
    SplitFields(fields);
    ParseNatToString(flags);
    assert quoted[1..|quoted| - 1] == value;
  }

  // ---------------------------------------------------------------------------------------------
  // The parsed zone and its in-place edits
  // ---------------------------------------------------------------------------------------------

  datatype Zone = Zone(lists: map<String, seq<ZoneRecord>>, serial: int)

  /** The lists after `getArrayOf`: the named list is attached, empty, when the zone lacks it. */
  function Attach(lists: map<String, seq<ZoneRecord>>, key: String): map<String, seq<ZoneRecord>>
  {
    if key in lists then lists else lists[key := []]
  }

  /** `getArrayOf` attaches a list once and returns that same list from then on. */
  lemma AttachOnce(lists: map<String, seq<ZoneRecord>>, key: String)
    ensures var once := Attach(lists, key);
      key in once && once[key] == (if key in lists then lists[key] else [])
      && Attach(once, key) == once
      && forall k :: k in lists ==> k in once && once[k] == lists[k]
  {
  }

  /** `appendIfNotExist(zone, arr, map)`: the record is added unless an equal one is listed. */
  function AppendRecord(arr: seq<ZoneRecord>, rec: ZoneRecord): (r: (seq<ZoneRecord>, bool))
    ensures r.1 <==> rec !in arr
    ensures rec in r.0 && multiset(arr) <= multiset(r.0)
    ensures |r.0| == |arr| + (if r.1 then 1 else 0)
  {
    if rec in arr then (arr, false) else (arr + [rec], true)
  }

  /** `deleteIfExist(zone, arr, map)`: the first equal record is removed, if there is one. */
  function DeleteRecord(arr: seq<ZoneRecord>, rec: ZoneRecord): (r: (seq<ZoneRecord>, bool))
    ensures r.1 <==> rec in arr
    ensures multiset(r.0) == multiset(arr) - multiset{rec}
  {
    RemoveFirstMultiset(arr, rec);
    if rec in arr then (RemoveFirst(arr, rec), true) else (arr, false)
  }

  /** The `file` object of a locked body: parsed once, then edited in place. */
  class ZoneFile {
    var lists: map<String, seq<ZoneRecord>>
    var serial: int

    constructor (z: Zone)
      ensures State() == z
    {
      lists := z.lists;
      serial := z.serial;
    }

    function State(): Zone
      reads this
    {
      Zone(lists, serial)
    }

    /** `getArrayOf(file, type)`: the list's name, or the error thrown for an unknown type. */
    method GetArrayOf(t: String) returns (r: Result<String>)
      modifies this
      ensures r == (match ArrayKey(t) case None => Err("Unknown type " + t) case Some(key) => Ok(key))
      ensures lists == (if r.Ok? then Attach(old(lists), r.value) else old(lists))
      ensures serial == old(serial)
    {
      var key := ArrayKey(t);
      if key.None? {
        return Err("Unknown type " + t);
      }
      if key.value !in lists {
        lists := lists[key.value := []];
      }
      return Ok(key.value);
    }

    method AppendIfNotExist(key: String, rec: ZoneRecord) returns (changed: bool)
      requires key in lists
      modifies this
      ensures key in lists
      ensures (lists[key], changed) == AppendRecord(old(lists)[key], rec)
      ensures lists == old(lists)[key := lists[key]] && serial == old(serial)
    {
      var arr := lists[key];
      if rec in arr {
        return false;
      }
      lists := lists[key := arr + [rec]];
      return true;
    }

    method DeleteIfExist(key: String, rec: ZoneRecord) returns (changed: bool)
      requires key in lists
      modifies this
      ensures key in lists
      ensures (lists[key], changed) == DeleteRecord(old(lists)[key], rec)
      ensures lists == old(lists)[key := lists[key]] && serial == old(serial)
    {
      var arr := lists[key];
      if rec !in arr {
        return false;
      }
      lists := lists[key := RemoveFirst(arr, rec)];
      return true;
    }

    /**
     * One pass of `set`'s loop body on this file: the entry is checked, its list attached, its
     * record built and added or deleted; the file then holds the zone the step continues with.
     */
    method ApplyMod(count: nat, zone: String, m: Option<Mod>, absolute: (String, String) -> String) returns (e: StepEnd)
      modifies this
      ensures e == ModStep(old(State()), count, zone, m, absolute)
      ensures e.Continue? ==> State() == e.z
    {
      if !ValidMod(m) {
        return Invalid;
      }
      var md := m.value;
      var action := Lower(md.action.value);
      var key := GetArrayOf(Upper(md.rtype.value));
      if key.Err? {
        return Thrown(key.error);
      }
      var rec := ModRecord(md, zone, absolute);
      if rec.Err? {
        return Thrown(rec.error);
      }
      var changed := false;
      if action == "add" {
        changed := AppendIfNotExist(key.value, rec.value);
      }
      if action == "del" {
        changed := DeleteIfExist(key.value, rec.value);
      }
      return Continue(State(), if changed then count + 1 else count);
    }

    /** `file.soa.serial++`. */
    method BumpSerial()
      modifies this
      ensures lists == old(lists) && serial == old(serial) + 1
    {
      serial := serial + 1;
    }
  }

  // ---------------------------------------------------------------------------------------------
  // `set`: a batch of modifications
  // ---------------------------------------------------------------------------------------------

  /** One entry of `mods`; a missing property is `None`. */
  datatype Mod = Mod(action: Option<String>, domain: Option<String>, rtype: Option<String>, value: Option<String>)

  /** `mods` as posted: one object, or an array of them (either may be `null`). */
  datatype ModsInput = Single(m: Option<Mod>) | Many(ms: seq<Option<Mod>>)

  /** `if (!Array.isArray(mods)) mods = [mods]`. */
  function Wrap(input: ModsInput): (mods: seq<Option<Mod>>)
    ensures input.Single? ==> mods == [input.m]
    ensures input.Many? ==> mods == input.ms
  {
    match input
    case Single(m) => [m]
    case Many(ms) => ms
  }

  predicate Present(s: Option<String>)
  {
    s.Some? && |s.value| > 0
  }

  /** The entry is an object whose four properties are all truthy. */
  predicate ValidMod(m: Option<Mod>)
  {
    m.Some? && Present(m.value.action) && Present(m.value.domain) && Present(m.value.rtype)
    && Present(m.value.value)
  }

  /** How a step of the loop, or the whole loop, ends. */
  datatype StepEnd = Invalid | Thrown(error: String) | Continue(z: Zone, count: nat)

  /** The record an entry describes, with its domain lower-cased and made absolute. */
  function ModRecord(m: Mod, zone: String, absolute: (String, String) -> String): Result<ZoneRecord>
    requires Present(m.domain) && Present(m.rtype) && Present(m.value)
  {
    MakeRecord(Lower(m.rtype.value), absolute(Lower(m.domain.value), zone), m.value.value)
  }

  /**
   * One pass of the loop body: the entry is checked, its list attached, its record built, and the
   * record added or deleted as the lower-cased action says; any other action edits nothing.
   */
  function ModStep(z: Zone, count: nat, zone: String, m: Option<Mod>, absolute: (String, String) -> String): StepEnd
  {
    if !ValidMod(m) then Invalid
    else
      var md := m.value;
      var action := Lower(md.action.value);
      var t := Upper(md.rtype.value);
      match ArrayKey(t)
      case None => Thrown("Unknown type " + t)
      case Some(key) =>
        var lists := Attach(z.lists, key);
        match ModRecord(md, zone, absolute)
        case Err(e) => Thrown(e)
        case Ok(rec) =>
          if action == "add" then
            var (arr, changed) := AppendRecord(lists[key], rec);
            Continue(Zone(lists[key := arr], z.serial), if changed then count + 1 else count)
          else if action == "del" then
            var (arr, changed) := DeleteRecord(lists[key], rec);
            Continue(Zone(lists[key := arr], z.serial), if changed then count + 1 else count)
          else Continue(Zone(lists, z.serial), count)
  }

  /** The loop over the entries, from zone `z` and count `count`. */
  function RunMods(z: Zone, count: nat, zone: String, mods: seq<Option<Mod>>, absolute: (String, String) -> String): StepEnd
    decreases |mods|
  {
    if |mods| == 0 then Continue(z, count)
    else
      match ModStep(z, count, zone, mods[0], absolute)
      case Continue(z', count') => RunMods(z', count', zone, mods[1..], absolute)
      case other => other
  }

  /** `RunMods` from entry `i` on is the step at `i` followed by the rest. */
  lemma RunModsAt(z: Zone, count: nat, zone: String, mods: seq<Option<Mod>>, i: nat, absolute: (String, String) -> String)
    requires i < |mods|
    ensures RunMods(z, count, zone, mods[i..], absolute)
      == match ModStep(z, count, zone, mods[i], absolute)
         case Continue(z', count') => RunMods(z', count', zone, mods[i + 1..], absolute)
         case other => other
  {
    assert mods[i..][0] == mods[i] && mods[i..][1..] == mods[i + 1..];
  }

  /** `SetOutcome` once the loop's end `e` is known. */
  lemma SetOutcomeOf(live: Zone, zone: String, input: ModsInput, absolute: (String, String) -> String, e: StepEnd)
    requires RunMods(live, 0, zone, Wrap(input), absolute) == e
    ensures SetOutcome(live, zone, input, absolute)
      == match e
         case Invalid => (Ok(InvalidConfig), live)
         case Thrown(err) => (Err(err), live)
         case Continue(z, count) =>
           if count == 0 then (Ok(DoneUnchanged), live) else (Ok(DoneUpdating(count, Zone(z.lists, z.serial + 1))), Zone(z.lists, z.serial + 1))
  {
  }

  /** What `set` answers; `DoneUpdating` carries the zone whose text the reply quotes. */
  datatype Reply = InvalidConfig | DoneUnchanged | DoneUpdating(count: nat, result: Zone)

  function ReplyText(r: Reply, generate: Zone -> String): String
  {
    match r
    case InvalidConfig => "Invalid config"
    case DoneUnchanged => "Done unchanged"
    case DoneUpdating(count, result) => "Done updating " + NatToString(count) + " records\n" + generate(result)
  }

  /** What `set` answers and the zone it leaves live: edits are installed only when some count. */
  function SetOutcome(live: Zone, zone: String, input: ModsInput, absolute: (String, String) -> String): (Result<Reply>, Zone)
  {
    match RunMods(live, 0, zone, Wrap(input), absolute)
    case Invalid => (Ok(InvalidConfig), live)
    case Thrown(e) => (Err(e), live)
    case Continue(z, count) =>
      if count == 0 then (Ok(DoneUnchanged), live)
      else
        var z' := Zone(z.lists, z.serial + 1);
        (Ok(DoneUpdating(count, z')), z')
  }

  // ---------------------------------------------------------------------------------------------
  // `add` and `del` of one record
  // ---------------------------------------------------------------------------------------------

  datatype Edit = Add | Del

  /**
   * `add`/`del` as written: the list is looked up with `type` as given, which `arrayKey` knows
   * only in upper case, and the record is built with `mapKey[type]`, which knows only lower case.
   * `del` does not return what its locked body answers.
   */
  function EditOutcome(edit: Edit, live: Zone, domain: String, t: String, value: String): (Result<Option<String>>, Zone)
  {
    match ArrayKey(t)
    case None => (Err("Unknown type " + t), live)
    case Some(key) =>
      match MakeRecord(t, domain, value)
      case Err(e) => (Err(e), live)
      case Ok(rec) =>
        var lists := Attach(live.lists, key);
        var (arr, changed) := if edit.Add? then AppendRecord(lists[key], rec) else DeleteRecord(lists[key], rec);
        var reply := if edit.Add? then Some(if changed then "Done updated" else "Done unchanged") else None;
        if changed then (Ok(reply), Zone(lists[key := arr], live.serial + 1)) else (Ok(reply), live)
  }

  /** As written, `add` and `del` throw for every type and leave the zone alone. */
  lemma EditAlwaysThrows(edit: Edit, live: Zone, domain: String, t: String, value: String)
    ensures EditOutcome(edit, live, domain, t, value).0.Err?
    ensures EditOutcome(edit, live, domain, t, value).1 == live
  {
    if ArrayKey(t).Some? {
      assert t in RecordTypes;
      assert MakeRecord(t, domain, value) == Err(NotAFunction);
    }
  }

  /**
   * `add`/`del` as evidently intended, as `set` does it: the list by the upper-cased type, the
   * record by the lower-cased one, and both replies returned.
   */
  function EditOutcomeFixed(edit: Edit, live: Zone, domain: String, t: String, value: String): (Result<String>, Zone)
  {
    match ArrayKey(Upper(t))
    case None => (Err("Unknown type " + Upper(t)), live)
    case Some(key) =>
      match MakeRecord(Lower(t), domain, value)
      case Err(e) => (Err(e), live)
      case Ok(rec) =>
        var lists := Attach(live.lists, key);
        var (arr, changed) := if edit.Add? then AppendRecord(lists[key], rec) else DeleteRecord(lists[key], rec);
        if changed then (Ok("Done updated"), Zone(lists[key := arr], live.serial + 1))
        else (Ok("Done unchanged"), live)
  }

  /** With the case fixed, every known type reaches a record constructor. */
  lemma KnownTypeHasConstructor(t: String, domain: String, value: String)
    requires ArrayKey(Upper(t)).Some?
    ensures MakeRecord(Lower(t), domain, value) != Err(NotAFunction)
  {
    LowerOfUpper(t);
    assert Lower(t) == ArrayKey(Upper(t)).value;
  }

  /**
   * The corrected `add` of a record the zone lacks updates, bumping the serial once, and a `del` of
   * it afterwards restores every list the zone had, again bumping the serial.
   */
  lemma AddThenDelFixed(live: Zone, domain: String, t: String, value: String)
    requires ArrayKey(Upper(t)).Some? && MakeRecord(Lower(t), domain, value).Ok?
    requires var key := ArrayKey(Upper(t)).value;
      key in live.lists && MakeRecord(Lower(t), domain, value).value !in live.lists[key]
    ensures var (r1, z1) := EditOutcomeFixed(Add, live, domain, t, value);
      var (r2, z2) := EditOutcomeFixed(Del, z1, domain, t, value);
      r1 == Ok("Done updated") && r2 == Ok("Done updated")
      && z1.serial == live.serial + 1 && z2 == Zone(live.lists, live.serial + 2)
  {
    var key := ArrayKey(Upper(t)).value;
    var rec := MakeRecord(Lower(t), domain, value).value;
    var arr := live.lists[key];
    RemoveFirstAppended(arr, rec);
    assert live.lists[key := arr] == live.lists;
  }

  // ---------------------------------------------------------------------------------------------
  // The executor
  // ---------------------------------------------------------------------------------------------

  class NamedExecutor {
    /** The zone `NAMED_GET` reads and `NAMED_SET` installs. */
    var live: Zone

    constructor (live: Zone)
      ensures this.live == live
    {
      this.live := live;
    }

    /** `set(zone, mods)`. */
    method Set(zone: String, input: ModsInput, absolute: (String, String) -> String) returns (r: Result<Reply>)
      modifies this
      ensures (r, live) == SetOutcome(old(live), zone, input, absolute)
    {
      var file := new ZoneFile(live);
      var mods := Wrap(input);
      var count: nat := 0;
      for i := 0 to |mods|
        invariant live == old(live)
        invariant RunMods(file.State(), count, zone, mods[i..], absolute) == RunMods(live, 0, zone, mods, absolute)
      {
        RunModsAt(file.State(), count, zone, mods, i, absolute);
        var e := file.ApplyMod(count, zone, mods[i], absolute);
        if !e.Continue? {
          SetOutcomeOf(live, zone, input, absolute, e);
        }
        match e
        case Invalid => return Ok(InvalidConfig);
        case Thrown(error) => return Err(error);
        case Continue(_, count') => count := count';
      }
      assert mods[|mods|..] == [];
      SetOutcomeOf(live, zone, input, absolute, Continue(file.State(), count));
      if count == 0 {
        return Ok(DoneUnchanged);
      }
      file.BumpSerial();
      live := file.State();
      return Ok(DoneUpdating(count, live));
    }

    /** `add`/`del` with the type's case handled as `set` handles it. */
    method EditRecordFixed(edit: Edit, domain: String, t: String, value: String) returns (r: Result<String>)
      modifies this
      ensures (r, live) == EditOutcomeFixed(edit, old(live), domain, t, value)
    {
      var file := new ZoneFile(live);
      var key := file.GetArrayOf(Upper(t));
      if key.Err? {
        return Err(key.error);
      }
      var rec := MakeRecord(Lower(t), domain, value);
      if rec.Err? {
        return Err(rec.error);
      }
      var changed;
      if edit.Add? {
        changed := file.AppendIfNotExist(key.value, rec.value);
      } else {
        changed := file.DeleteIfExist(key.value, rec.value);
      }
      if !changed {
        return Ok("Done unchanged");
      }
      file.BumpSerial();
      live := file.State();
      return Ok("Done updated");
    }
  }

  // ---------------------------------------------------------------------------------------------
  // Properties of `set`
  // ---------------------------------------------------------------------------------------------

  /** The loop never touches the serial and counts at most one change per entry. */
  lemma {:induction false} RunModsBounds(z: Zone, count: nat, zone: String, mods: seq<Option<Mod>>, absolute: (String, String) -> String)
    ensures var e := RunMods(z, count, zone, mods, absolute);
      e.Continue? ==> e.z.serial == z.serial && count <= e.count <= count + |mods|
    decreases |mods|
  {
    if |mods| > 0 {
      var s := ModStep(z, count, zone, mods[0], absolute);
      if s.Continue? {
        assert s.z.serial == z.serial && count <= s.count <= count + 1;
        RunModsBounds(s.z, s.count, zone, mods[1..], absolute);
      }
    }
  }

  /**
   * `set` installs nothing unless it counted a change, and then bumps the serial exactly once,
   * whatever the number of changes, and reports that number, at most one per entry.
   */
  lemma SetSerial(live: Zone, zone: String, input: ModsInput, absolute: (String, String) -> String)
    ensures var (r, z) := SetOutcome(live, zone, input, absolute);
      (r.Ok? && r.value.DoneUpdating? ==>
        z == r.value.result && z.serial == live.serial + 1 && 1 <= r.value.count <= |Wrap(input)|)
      && (!(r.Ok? && r.value.DoneUpdating?) ==> z == live)
  {
    RunModsBounds(live, 0, zone, Wrap(input), absolute);
  }

  /** An entry missing a property ends `set` with "Invalid config" whatever follows it. */
  lemma InvalidFirst(live: Zone, zone: String, m: Option<Mod>, rest: seq<Option<Mod>>, absolute: (String, String) -> String)
    requires !ValidMod(m)
    ensures SetOutcome(live, zone, Many([m] + rest), absolute) == (Ok(InvalidConfig), live)
  {
  }

  /** The entry `set` receives for one record. */
  function AddMod(domain: String, t: String, value: String): Option<Mod>
  {
    Some(Mod(Some("add"), Some(domain), Some(t), Some(value)))
  }

  /** The loop of `set` over one "add" entry whose list the zone has. */
  lemma SetOneAdd(live: Zone, zone: String, domain: String, t: String, value: String, absolute: (String, String) -> String)
    requires |domain| > 0 && |value| > 0 && ArrayKey(Upper(t)).Some?
    requires var key := ArrayKey(Upper(t)).value;
      MakeRecord(Lower(t), absolute(Lower(domain), zone), value).Ok? && key in live.lists
    ensures var key := ArrayKey(Upper(t)).value;
      var rec := MakeRecord(Lower(t), absolute(Lower(domain), zone), value).value;
      var (arr, changed) := AppendRecord(live.lists[key], rec);
      RunMods(live, 0, zone, Wrap(Single(AddMod(domain, t, value))), absolute)
        == Continue(Zone(live.lists[key := arr], live.serial), if changed then 1 else 0)
  {
    var m := AddMod(domain, t, value);
    assert Lower("add") == "add";
    assert |Upper(t)| == |t|;
    assert ValidMod(m);
    assert Wrap(Single(m))[1..] == [];
  }

  /**
   * `set` with one "add" entry for a record the zone lacks reports one update and installs the
   * zone with that record appended to its list.
   */
  lemma SetAddsOne(live: Zone, zone: String, domain: String, t: String, value: String, absolute: (String, String) -> String)
    requires |domain| > 0 && |value| > 0 && ArrayKey(Upper(t)).Some?
    requires var key := ArrayKey(Upper(t)).value;
      var rec := MakeRecord(Lower(t), absolute(Lower(domain), zone), value);
      rec.Ok? && key in live.lists && rec.value !in live.lists[key]
    ensures var key := ArrayKey(Upper(t)).value;
      var rec := MakeRecord(Lower(t), absolute(Lower(domain), zone), value).value;
      var (r, z) := SetOutcome(live, zone, Single(AddMod(domain, t, value)), absolute);
      r.Ok? && r.value.DoneUpdating? && r.value.count == 1
      && z == Zone(live.lists[key := live.lists[key] + [rec]], live.serial + 1)
  {
    SetOneAdd(live, zone, domain, t, value, absolute);
  }

  /** A second `set` with the same "add" entry changes nothing. */
  lemma SetAddTwice(live: Zone, zone: String, domain: String, t: String, value: String, absolute: (String, String) -> String)
    requires |domain| > 0 && |value| > 0 && ArrayKey(Upper(t)).Some?
    requires var key := ArrayKey(Upper(t)).value;
      var rec := MakeRecord(Lower(t), absolute(Lower(domain), zone), value);
      rec.Ok? && key in live.lists && rec.value in live.lists[key]
    ensures SetOutcome(live, zone, Single(AddMod(domain, t, value)), absolute) == (Ok(DoneUnchanged), live)
  {
    SetOneAdd(live, zone, domain, t, value, absolute);
    var key := ArrayKey(Upper(t)).value;
    assert live.lists[key := live.lists[key]] == live.lists;
  }
}
