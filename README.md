# bridge, modelled in Dafny

This project models the core of domcloud/bridge, the agent that runs on each hosting server. It
has two parts.

- **The Node service.** Its executors read and rewrite the host's firewall rule files (iptables
  and nftables), BIND zone files, NGINX server blocks, systemd units, Virtualmin domains, podman
  user registrations, port assignments, Redis account keys and pulse fixes. The runner turns a
  deployment script into shell commands.
- **The maintenance scripts and daemon.** `sudokill.js` kills stray processes. `sudocleanssl.js`
  stops Let's Encrypt renewals that keep failing. The Go daemon in `deployd/` forwards requests
  from a Unix socket to the runner on behalf of the peer's uid.

Each executor is modelled as what it does to text and records:

- a parser and its encoder;
- the edit an operation makes to a file;
- the message it returns;
- the command lines it emits.

File reads, `sudo` spawns, locks, the clock, the environment, child processes and the network are
parameters or are left out. Where an executor updates a buffer step by step, the model is a
`class` whose methods say what the new state is. Each such method is proved against a function
of the old state. Loops become methods with invariants, proved against left-recursive
specification functions.

The modules follow the source files:

| module | file | models |
|---|---|---|
| `Base`, `Strings`, `Patterns` | `base.dfy`, `strings.dfy`, `patterns.dfy` | JavaScript array, object, string and regular-expression behaviour the code relies on |
| `IptablesParser`, `MarkedBlocks` | `iptables_parser.dfy`, `marked_blocks.dfy` | `src/parsers/iptables.js` |
| `RuleLines`, `IptablesHelpers`, `NftablesHelpers` | `rule_lines.dfy`, `iptables_helpers.dfy`, `nftables_helpers.dfy` | `src/helpers/iptables.js`, `src/helpers/nftables.js` |
| `IptablesExecutor`, `NftablesExecutor` | `iptables_executor.dfy`, `nftables_executor.dfy` | `src/executor/iptables.js`, `src/executor/nftables.js` |
| `Named` | `named.dfy` | `src/executor/named.js` |
| `Paths`, `Nginx`, `NginxRoundTrip`, `NginxServer`, `NginxOldCopy` | `paths.dfy`, `nginx*.dfy` | `src/nginx/index.js`, `src/executor/nginx.js` |
| `Virtualmin`, `Unit` | `virtualmin.dfy`, `unit.dfy` | `src/executor/virtualmin.js`, `src/executor/unit.js` |
| `RunnerCode`, `RunnerSub`, `Runner` | `runnercode.dfy`, `runnersub.dfy`, `runner.dfy` | `src/executor/runnercode.js`, `src/executor/runnersub.js`, `src/executor/runner.js` |
| `Docker`, `LineFile`, `Redis` | `docker.dfy`, `linefile.dfy`, `redis.dfy` | `src/executor/docker.js`, `src/executor/redis.js` |
| `Portman`, `Podman`, `Pulse` | `portman.dfy`, `podman.dfy`, `pulse.dfy` | `src/executor/portman.js`, `src/executor/podman.js`, `src/executor/pulse.js` |
| `Update`, `Util` | `update.dfy`, `util.dfy` | `src/binaries/update.js`, `src/util.js` |
| `Sudokill`, `Sudocleanssl` | `sudokill.dfy`, `sudocleanssl.dfy` | `sudokill.js`, `sudocleanssl.js` |
| `Deployd` | `deployd.dfy` | `deployd/main.go`, `deployd/peercred_linux.go`, `deployd/peercred_darwin.go` |

## Model

| member | source | states |
|---|---|---|
| IptablesParser.ParseWordsLastWins | src/parsers/iptables.js:39-43 | A key given again as the last pair of a rule takes that last value |
| IptablesParser.ParseWordsDanglingKey | src/parsers/iptables.js:41 | A trailing key with no value word maps to the empty string |
| IptablesParser.ParseDocIgnoresPreamble | src/parsers/iptables.js:64-66 | Text before the first `*` does not affect the parsed document |
| IptablesParser.ParseTableSkipsComments | src/parsers/iptables.js:50-54 | Lines starting with `#` never reach a table's name, chains or rules |
| IptablesParser.RuleRoundTrip | src/parsers/iptables.js:36-78 | Parsing an encoded well-formed rule (no integer-like key) gives back the same pairs, for any number of pairs |
| IptablesParser.RuleRoundTripInOrder | src/parsers/iptables.js:36-78 | Corrected, writing the pairs in assignment order: parsing an encoded rule of distinct tokens gives back the same pairs, whatever its keys |
| IptablesParser.IndexKeyNotRuleLine | src/parsers/iptables.js:76-77 | As written, a rule with an integer-like key is encoded starting with a digit, so its line does not start with `-A` |
| IptablesParser.IndexKeyRuleDropped | src/parsers/iptables.js:50-82 | As written, a table one of whose rules has an integer-like key reads back with fewer rules |
| IptablesParser.RecentRuleDropped | src/parsers/iptables.js:36-82 | As written, a filter table holding only `-A INPUT -m recent --update --seconds 60 --hitcount 4 …` reads back with no rule |
| IptablesParser.EncodedRuleLine | src/parsers/iptables.js:76-77 | An encoded well-formed rule (no integer-like key) is one trimmed line that starts with `-A` and holds no `*` |
| IptablesParser.TableRoundTrip | src/parsers/iptables.js:50-82 | Parsing the text of an encoded well-formed table (no integer-like key in its rules) gives back its name, chains and rules |
| IptablesParser.TableTextSolid | src/parsers/iptables.js:80-82 | A well-formed table's text holds no `*` and has no whitespace at either end |
| IptablesParser.EncodeDocMarked | src/parsers/iptables.js:87-89 | An encoded document is its table texts, each after a `*`, separated by blank lines |
| IptablesParser.ParseEncodeDoc | src/parsers/iptables.js:64-89 | The encoder is the mirror image of the parser: a well-formed document (no integer-like key or table name) reads back as itself |
| MarkedBlocks.SplitMarked | src/parsers/iptables.js:66-68 | Splitting a marked document on its marker gives an empty piece, then one piece per block that trims back to the block |
| MarkedBlocks.MarkedStart | src/parsers/iptables.js:65-66 | A marked document starts with its marker, so the first marker is at 0 and nothing is dropped |
| RuleLines.RecordIndex | src/helpers/iptables.js:3 | The index found is the first line that is one of the record's variants, or -1 when no line is |
| RuleLines.AfterDelete | src/helpers/iptables.js:2-10 | Deletion removes exactly the first matching line and reports true, or changes nothing and reports false |
| RuleLines.BeforeLast | src/helpers/iptables.js:15 | `splice(length - 1, 0, x)` inserts before the last line, and at 0 in an empty list |
| RuleLines.AfterInsertBeforeLast | src/helpers/iptables.js:12-20 | The iptables append puts the record's first variant before the last line when no variant is present, and otherwise changes nothing |
| RuleLines.AfterPush | src/helpers/nftables.js:12-20 | The nftables append pushes the record's first variant at the end when no variant is present, and otherwise changes nothing |
| RuleLines.RuleList.constructor | src/helpers/iptables.js:2 | A rule list holding the given lines |
| RuleLines.RuleList.DeleteIfRecordExist | src/helpers/iptables.js:2-10 | The list is updated in place to the deletion's result, and the answer tells whether it changed |
| RuleLines.RuleList.InsertIfRecordNotExist | src/helpers/iptables.js:12-20 | The list is updated in place to the iptables append's result |
| RuleLines.RuleList.PushIfRecordNotExist | src/helpers/nftables.js:12-20 | The list is updated in place to the nftables append's result |
| RuleLines.PushThenDelete | src/helpers/nftables.js:2-20 | Pushing a record the list lacks and then deleting it gives the list back |
| RuleLines.InsertThenDelete | src/helpers/iptables.js:2-20 | Inserting a record the list lacks before its last line and then deleting it gives the list back |
| RuleLines.PushIdempotent | src/helpers/nftables.js:12-20 | A second push of the same record changes nothing and reports false |
| RuleLines.InsertIdempotent | src/helpers/iptables.js:12-20 | A second insert of the same record changes nothing and reports false |
| IptablesHelpers.GenRules | src/helpers/iptables.js:41-46 | A user has two distinct rules: the one by uid carrying the name as a comment, then the one by name |
| IptablesHelpers.ParseBlockHeader | src/helpers/iptables.js:29-30 | A parsed block is never empty: its first line is its `*` header, and none of its lines is a comment |
| IptablesHelpers.ParseDocIgnoresPreamble | src/helpers/iptables.js:28 | Text before the first `*` does not affect the parsed document |
| IptablesHelpers.BlockRoundTrip | src/helpers/iptables.js:29-32 | Reading back the body of a well-formed block gives the block's name and lines |
| IptablesHelpers.EncodeDocMarked | src/helpers/iptables.js:37-39 | An encoded document is its block bodies, each after a `*`, separated by blank lines, with a final newline |
| IptablesHelpers.ParseEncodeDoc | src/helpers/iptables.js:27-39 | The encoder is the mirror image of the parser: a well-formed document (no integer-like block name) reads back as itself |
| IptablesHelpers.AppendWritesUidRule | src/helpers/iptables.js:12-20 | Appending a user's rules to a block that holds neither writes only the uid rule, and the name rule stays absent |
| NftablesHelpers.ParseDoc | src/helpers/nftables.js:27-29 | Every parsed rule is one line starting with `add rule` |
| NftablesHelpers.GenRules | src/helpers/nftables.js:39-43 | A user has a single rule, which is an `add rule` line |
| NftablesHelpers.EncodeEmptyLines | src/helpers/nftables.js:35-37 | With no rules the encoding is the shebang followed by three newlines |
| NftablesHelpers.ParseEncodeDoc | src/helpers/nftables.js:27-37 | Parsing an encoded list of `add rule` lines gives the list back |
| NftablesHelpers.RuleForInjective | src/helpers/nftables.js:39-43 | The generated rule determines the user: equal rules mean equal names and equal uids (uids hold no space) |
| IptablesExecutor.FirstOwnedBy | src/executor/iptables.js:32 | The answer is the first rule whose `--uid-owner` is the user, and none exactly when no rule names the user |
| IptablesExecutor.GetByUsers | src/executor/iptables.js:29-34 | One answer per requested user, in order, each the first filter rule owned by that user |
| IptablesExecutor.GetRaw | src/executor/iptables.js:22-24 | The raw text of a well-formed parsed document reads back as that document |
| IptablesExecutor.ApplyEdit | src/executor/iptables.js:46-51 | An add changes the rules exactly when the rule is missing and then appends it; a delete changes them exactly when the rule is present and then removes one copy |
| IptablesExecutor.Executor.constructor | src/executor/iptables.js:13-14 | The executor starts with the two tmp files' texts |
| IptablesExecutor.Executor.IptablesGet | src/executor/iptables.js:37 | `IPTABLES_GET` copies the live IPv4 rules into `.tmp/iptables` and leaves `.tmp/ip6tables` alone |
| IptablesExecutor.Executor.Ip6tablesGet | src/executor/iptables.js:58 | `IP6TABLES_GET` copies the live IPv6 rules into `.tmp/ip6tables` and leaves `.tmp/iptables` alone |
| IptablesExecutor.Executor.GetParsed | src/executor/iptables.js:35-40 | `getParsed` fetches the live IPv4 rules into `.tmp/iptables` and returns that text parsed |
| IptablesExecutor.Executor.EditTmp | src/executor/iptables.js:42-56 | One locked step edits one tmp file's filter rules and rewrites the file only when they changed; a document without a filter table is an error |
| IptablesExecutor.Executor.SetUser | src/executor/iptables.js:41-73 | `setAddUser` and `setDelUser` as written: the result and both tmp files are those of the as-written outcome |
| IptablesExecutor.Executor.SetUserFixed | src/executor/iptables.js:41-106 | The same with the IPv6 step fetching the IPv6 rules: the result and both files are those of the corrected outcome |
| IptablesExecutor.UnchangedKeepsText | src/executor/iptables.js:51-53 | An edit that reports no change leaves the file's text as it was |
| IptablesExecutor.WithFilterWellFormed | src/executor/iptables.js:54 | Replacing the filter rules of a well-formed document by well-formed rules keeps the document well formed |
| IptablesExecutor.UserRuleOwner | src/executor/iptables.js:46-51 | The rule written for a user names that user as its `--uid-owner` |
| IptablesExecutor.AddStep | src/executor/iptables.js:44-55 | Adding the user's rule to a well-formed document that lacks it reports a change, and the new text reads back with the rule appended to the filter rules |
| IptablesExecutor.AddThenDelete | src/executor/iptables.js:41-89 | Adding a missing rule and then deleting it both report a change, and the deletion gives back the original text |
| IptablesExecutor.AddedRuleLost | src/executor/iptables.js:57-59 | As written, adding a user reports "Updated for iptables", yet `.tmp/iptables` ends as the live text, still without the rule |
| IptablesExecutor.V4UpdatedMessage | src/executor/iptables.js:42-58 | As written, a changing IPv4 edit is reported first, while the IPv4 file ends as the live text |
| IptablesExecutor.AddedRuleKept | src/executor/iptables.js:41-73 | With the IPv6 step fetching its own rules, adding a user keeps the user's rule in `.tmp/iptables`, where `getByUsers` finds it |
| IptablesExecutor.V4UpdatedMessageFixed | src/executor/iptables.js:42-56 | In the corrected version, a changing IPv4 edit is reported first and the IPv4 file keeps the edited text |
| IptablesExecutor.OwnedAppended | src/executor/iptables.js:32 | Appending the user's rule to rules none of which name the user makes it the user's first rule |
| IptablesExecutor.FirstOwnedNotRule | src/executor/iptables.js:32 | Rules that lack the user's rule do not yield it as the user's first rule |
| NftablesExecutor.GetByUser | src/executor/nftables.js:21-24 | A user is listed exactly when the rule generated for the user is one of the parsed lines |
| NftablesExecutor.Executor.constructor | src/executor/nftables.js:14 | The executor starts with the live ruleset and the tmp file's text |
| NftablesExecutor.Executor.FirewallGet | src/executor/nftables.js:27 | `FIREWALL_GET` copies the live ruleset into `.tmp/nftables` |
| NftablesExecutor.Executor.FirewallSet | src/executor/nftables.js:41 | `FIREWALL_SET` makes `.tmp/nftables` the live ruleset |
| NftablesExecutor.Executor.GetParsed | src/executor/nftables.js:25-30 | `getParsed` returns the rule lines of the live ruleset, fetched into the tmp file |
| NftablesExecutor.Executor.SetAddUser | src/executor/nftables.js:31-44 | The message, the tmp file and the live ruleset after `setAddUser` are those of the add outcome |
| NftablesExecutor.Executor.SetDelUser | src/executor/nftables.js:45-58 | The message, the tmp file and the live ruleset after `setDelUser` are those of the delete outcome |
| NftablesExecutor.AddEffect | src/executor/nftables.js:31-44 | `setAddUser` reports no change, and leaves the ruleset alone, exactly when the rule is already there; otherwise the applied ruleset reads back as the old rules with the rule appended |
| NftablesExecutor.DelEffect | src/executor/nftables.js:45-58 | `setDelUser` reports no change exactly when the rule is absent; otherwise the applied ruleset reads back as the old rules without the first copy of the rule |
| NftablesExecutor.AddThenDel | src/executor/nftables.js:31-58 | Adding a missing rule and then deleting it both report an update and give back the rules the ruleset held |
| NftablesExecutor.AddTwice | src/executor/nftables.js:31-44 | A second `setAddUser` for the same user changes nothing and says so |
| Named.ArrayKey | src/executor/named.js:18-29 | A list name exists exactly for the ten upper-case record types, and it is the type in lower case |
| Named.StripQuotes | src/executor/named.js:75 | A CAA value loses exactly one pair of surrounding double quotes, or is kept as it is |
| Named.TxtKeepsValue | src/executor/named.js:56-59 | A TXT record keeps the whole value, spaces included |
| Named.SplitFields | src/executor/named.js:116 | Space-free fields joined by single spaces split back into the same fields |
| Named.MxRoundTrip | src/executor/named.js:47-51 | An MX value written as preference and host (section 3.3.9 of RFC 1035) builds the record with that preference and host |
| Named.SrvRoundTrip | src/executor/named.js:60-66 | An SRV value written as priority, weight, port and target (RFC 2782) builds the record with those four fields |
| Named.CaaRoundTrip | src/executor/named.js:71-76 | A CAA value written as flags, tag and quoted value (section 4.1 of RFC 8659) builds the record with the unquoted value |
| Named.AttachOnce | src/executor/named.js:82 | `getArrayOf` attaches an empty list only when the zone lacks it, keeps every other list, and attaching again changes nothing |
| Named.AppendRecord | src/executor/named.js:117 | A record is added exactly when no equal record is listed; the list only grows, and the record is then listed |
| Named.DeleteRecord | src/executor/named.js:138 | A record is removed exactly when an equal one is listed, and one copy of it goes |
| Named.ZoneFile.constructor | src/executor/named.js:114 | The zone file holds the parsed zone |
| Named.ZoneFile.GetArrayOf | src/executor/named.js:79-83 | An unknown type throws `Unknown type <type>` and changes nothing; a known type attaches its list, and the serial is untouched |
| Named.ZoneFile.AppendIfNotExist | src/executor/named.js:117 | Only the named list changes, as the append decides, and the serial is untouched |
| Named.ZoneFile.DeleteIfExist | src/executor/named.js:138 | Only the named list changes, as the deletion decides, and the serial is untouched |
| Named.ZoneFile.ApplyMod | src/executor/named.js:159-177 | One pass of the loop of `set` changes the file as the step function on the old zone says |
| Named.ZoneFile.BumpSerial | src/executor/named.js:181 | The serial goes up by one and the lists stay as they were |
| Named.Wrap | src/executor/named.js:156-158 | A single entry becomes a list of one; a list is kept |
| Named.EditAlwaysThrows | src/executor/named.js:115-116 | As written, `add` and `del` throw for every type and leave the zone alone |
| Named.KnownTypeHasConstructor | src/executor/named.js:164-166 | With the case handled as `set` handles it, every known type reaches a record constructor |
| Named.AddThenDelFixed | src/executor/named.js:111-146 | The corrected `add` of a missing record updates and bumps the serial; a `del` of it afterwards restores every list and bumps the serial again |
| Named.NamedExecutor.constructor | src/executor/named.js:85 | The executor starts with the live zone |
| Named.NamedExecutor.Set | src/executor/named.js:151-187 | The result of `set` and the live zone afterwards are those of the set outcome |
| Named.NamedExecutor.EditRecordFixed | src/executor/named.js:111-146 | The corrected `add` and `del` leave the result and zone of the corrected outcome |
| Named.RunModsBounds | src/executor/named.js:159-177 | The loop never touches the serial and counts at most one change per entry |
| Named.SetSerial | src/executor/named.js:178-185 | `set` installs nothing unless it counted a change, and then bumps the serial exactly once and reports a count between one and the number of entries |
| Named.InvalidFirst | src/executor/named.js:160-162 | An entry missing a property ends `set` with "Invalid config" and no change, whatever follows it |
| Named.SetOneAdd | src/executor/named.js:159-171 | The loop over one "add" entry leaves the list with the append's result and counts its change |
| Named.SetAddsOne | src/executor/named.js:151-185 | `set` with one "add" of a missing record reports one update and installs the zone with that record appended and the serial bumped |
| Named.SetAddTwice | src/executor/named.js:167-180 | A second `set` with the same "add" entry changes nothing and says so |
| Paths.NormalizeClean | src/executor/nginx.js:43 | An absolute path with no empty, `.` or `..` segment is already what `path.normalize` returns |
| Paths.JoinUnderHome | src/executor/nginx.js:43 | `path.join` of `/home/<user>` and a clean relative path is `/home/<user>/<path>` |
| Paths.LastSegment | src/executor/nginx.js:50 | A clean path ends in a segment, never in '/' |
| Paths.CleanPrefix | src/executor/nginx.js:43 | A plain segment in front of a clean path keeps it clean and adds exactly one segment |
| Paths.ResolvePlain | src/executor/nginx.js:43 | Resolving segments that are all plain keeps them all, in order |
| Nginx.FindServ | src/executor/nginx.js:21-23 | The index found is the first server listing the name as a word of `server_name`; none means no server lists it; a `TypeError` means a server without a value comes before any match |
| Nginx.Named | src/executor/nginx.js:179 | `node[name]` holds at most as many children as the node has |
| Nginx.NamedFrom | src/executor/nginx.js:179 | Every child listed under a name is one of the node's children under that name |
| Nginx.Dir | src/executor/nginx.js:186 | A directive list that exists is never empty |
| Nginx.Mask | src/executor/nginx.js:184 | The SSL bitmask is one of 0 to 3, so it always indexes `sslNames` |
| Nginx.Values | src/executor/nginx.js:201-204 | The error pages read are the `error_page` values, one per directive, in order |
| Nginx.ExtractInfo | src/executor/nginx.js:179-185 | The `listen` loop and the rest of `extractInfo` give the record `ExtractInfoOf` defines |
| Nginx.ScanStopsAt | src/executor/nginx.js:180 | Once a `listen` has no value, the whole loop is a `TypeError` |
| Nginx.ScanStep | src/executor/nginx.js:180-184 | One turn of the loop takes the state one listen further, and its mask is the old mask ORed with 2 for an SSL listen and 1 otherwise |
| Nginx.ExpandLocsStops | src/executor/nginx.js:54-61 | Once a nested location fails, expanding the rest of the list fails the same way |
| Nginx.ExpandLocsStep | src/executor/nginx.js:54-61 | Each location with a truthy match adds its own nested directives after those before it |
| Nginx.ExpandLocation | src/executor/nginx.js:39-86 | `expandLocation` adds the location directives, then the passenger ones, then the nested locations, then the fastcgi ones, as `Expand` defines, failing when a nested one fails |
| Nginx.AddFields | src/executor/nginx.js:40-45 | The loop over the location keys adds, in key order, one directive per truthy setting, under the home directory for root and alias |
| Nginx.AddPassenger | src/executor/nginx.js:46-53 | The loop over the passenger keys adds, in key order, one `passenger_<key>` directive per truthy setting |
| Nginx.AddLocations | src/executor/nginx.js:54-61 | The loop over nested locations expands each one with a truthy match and stops at the first failure |
| Nginx.ErrorPageDirs | src/executor/nginx.js:105-109 | One `error_page` directive per entry, in order, each holding that entry |
| Nginx.ServerBlock.constructor | src/executor/nginx.js:227-248 | The block starts as the parsed server node |
| Nginx.ServerBlock.Add | src/executor/nginx.js:41 | `_add` appends one named child and changes nothing else |
| Nginx.ServerBlock.ApplyInfo | src/executor/nginx.js:37-114 | `applyInfo` succeeds exactly when the directives can be built, and then the block holds no value and exactly those directives in order |
| Nginx.ServerBlock.AddHeader | src/executor/nginx.js:90-104 | The header appends `server_name`, the listens the SSL mode asks for, root, logs and the certificate pair |
| Nginx.ServerBlock.AddErrorPages | src/executor/nginx.js:105-109 | The error-page loop appends one `error_page` per entry and nothing else |
| NginxRoundTrip.HomeSlice | src/executor/nginx.js:43 | Slicing off `/home/<user>/` undoes the `path.join` under the home directory |
| NginxRoundTrip.FieldBack | src/executor/nginx.js:40-45 | A location directive `expandLocation` wrote reads back as the setting it was written from |
| NginxRoundTrip.PassengerBack | src/executor/nginx.js:46-53 | The passenger directives read back as exactly the passenger settings that were written |
| NginxRoundTrip.FieldsBack | src/executor/nginx.js:39-53 | Every location setting of a written record reads back field by field |
| NginxRoundTrip.LocBack | src/executor/nginx.js:54-61 | A nested location written by `expandLocation` reads back as its settings record |
| NginxRoundTrip.LocListBack | src/executor/nginx.js:116-149 | The location children of a written node read back as the nested records, and trailing fastcgi locations turn fastcgi on |
| NginxServer.ListenBack | src/executor/nginx.js:179-185 | The listen directives `applyInfo` writes scan back to the IPv4 and IPv6 addresses, with the bitmask of the SSL mode written |
| NginxServer.BlockCgi | src/executor/nginx.js:150-163 | `findFastCgi` on a written block finds the address the fastcgi location was written with |
| NginxServer.TopLocBack | src/executor/nginx.js:193-199 | The server's own settings read back: root sliced, no alias, the directives, passenger settings, nested locations and fastcgi "on" |
| NginxServer.RestBack | src/executor/nginx.js:186-204 | Everything after the listen loop reads back as the record written |
| NginxServer.RoundTripFixed | src/executor/nginx.js:227-248 | With the server's user and fastcgi address passed to every level, `extractInfo` of the block `applyInfo` writes gives back the record written, SSL mode normalised |
| NginxServer.ExpandOwn | src/executor/nginx.js:43 | As written, a record without `user` and `fcgi` is expanded as if the server had neither |
| NginxServer.RoundTripAsWritten | src/executor/nginx.js:37-114 | As written, a record `extractInfo` could have produced reads back without its fastcgi address |
| NginxServer.AsWrittenLosesFcgi | src/executor/nginx.js:62-85 | A server with a fastcgi address reads back differently through the as-written and the corrected `applyInfo` |
| NginxOldCopy.OldCopyAgrees | src/nginx/index.js:35-121 | On a block without `passenger_sticky_sessions`, the older `extractInfo` copy returns what the executor's returns without certificates |
| NginxOldCopy.CertsOnlyAdded | src/executor/nginx.js:188-191 | Reading the certificates only adds the certificate pair to an otherwise equal record |
| Virtualmin.RunStopped | src/executor/virtualmin.js:42-45 | After the first blank line breaks the loop, later lines change nothing |
| Virtualmin.ParseSections | src/executor/virtualmin.js:25-46 | The loop over the output lines builds the sections that the line-by-line `Run` defines |
| Virtualmin.GetDomainInfo | src/executor/virtualmin.js:11-55 | Exit code 255 gives `null`; otherwise a named domain gives its section or `undefined`, and no domain gives every stored section |
| Virtualmin.RunFields | src/executor/virtualmin.js:31-35 | Field lines only add fields to the section being gathered |
| Virtualmin.RunBlocks | src/executor/virtualmin.js:36-41 | Over well-formed domain blocks, every domain but the last is stored and the last is still pending |
| Virtualmin.ListingResult | src/executor/virtualmin.js:42-45 | A listing ended by a blank line stores every domain but the last before it, and ignores what follows |
| Virtualmin.StoredKeys | src/executor/virtualmin.js:37-41 | A domain is a key of the result exactly when one of the stored blocks has it as heading |
| Virtualmin.StoredLookup | src/executor/virtualmin.js:47-49 | Looking up a domain heading one stored block, once, finds that block's fields |
| Virtualmin.ExecFormatted | src/executor/virtualmin.js:60-77 | The argument vector is the program name followed by the flags of the merged options object, in `Object.entries` order (integer-like keys first, ascending) |
| Virtualmin.EmitEntries | src/executor/virtualmin.js:63-71 | The loop over the entries gives the program name followed by the flags of those entries, in order |
| Virtualmin.FlagsAppend | src/executor/virtualmin.js:63-71 | The flags of concatenated entries are the flags of each part, in order |
| Virtualmin.FalsyIgnored | src/executor/virtualmin.js:64 | Falsy values add nothing: the vector is that of the truthy entries alone |
| Virtualmin.MergedLastWins | src/executor/virtualmin.js:62 | In the merged options object each key has the value from the last object that sets it |
| Virtualmin.FlattenAppend | src/executor/virtualmin.js:62 | The entries of a later options object come after those of earlier ones |
| Virtualmin.EntryEmitted | src/executor/virtualmin.js:64-69 | A truthy entry gives `--key` in the vector, followed by its value unless it is `true` |
| Virtualmin.AllFalsy | src/executor/virtualmin.js:61-71 | With no truthy option value the vector is the program name alone |
| Virtualmin.BlankRun | src/executor/virtualmin.js:84 | A match of `\s*\n` at a line start is all whitespace and ends in a line feed |
| Virtualmin.Exec | src/executor/virtualmin.js:81-87 | `exec` keeps the exit code and strips blank lines from both streams |
| Virtualmin.StripLines | src/executor/virtualmin.js:84 | On line-feed text, the replacement drops exactly the whitespace-only lines with their line feeds and keeps every other line |
| Virtualmin.CrlfLosesLineFeed | src/executor/virtualmin.js:84 | On CRLF text the line feed after a carriage return is removed as if it ended a blank line |
| Unit.Collapse | src/executor/unit.js:42 | Collapsing slash runs leaves no run of slashes and keeps the first character |
| Unit.CollapseKeeps | src/executor/unit.js:42 | Collapsing removes slashes only: the other characters stay, in order |
| Unit.CollapseNoRun | src/executor/unit.js:42 | Text without a run of slashes is unchanged |
| Unit.WorkingDir | src/executor/unit.js:41-43 | The corrected working directory has no slash run and no trailing slash |
| Unit.SandboxOf | src/executor/unit.js:39-77 | With the corrected working directory of the unit.js:43 finding: the sandboxed record runs `bash -c <start command>` as the domain's user and group through the port executable, one process, and has an environment exactly when a non-empty list was given |
| Unit.Sandbox | src/executor/unit.js:65-74 | With the corrected working directory of the unit.js:43 finding: the environment loop fills the record that `SandboxOf` describes |
| Unit.EnvStrings | src/executor/unit.js:85 | One `k=v` string per environment entry |
| Unit.Unsandbox | src/executor/unit.js:78-87 | Nothing is recovered exactly when the record or its working directory is missing |
| Unit.SetDomain | src/executor/unit.js:88-94 | No start command deletes the application at its path; otherwise the sandboxed record is written there |
| Unit.HomeCollapse | src/executor/unit.js:42 | The home path of a normal directory has no slash run to collapse |
| Unit.WorkingDirNormal | src/executor/unit.js:41-43 | For a normal directory the working directory is `/home/<user>/<dir>` verbatim |
| Unit.WorkingDirTrailing | src/executor/unit.js:43 | A trailing slash on the directory names the same working directory |
| Unit.AppRootBack | src/executor/unit.js:84 | `unsandbox` reads the directory back from a working directory in normal form |
| Unit.EnvBack | src/executor/unit.js:67-72 | Splitting the rendered `k=v` strings again gives the environment back |
| Unit.EnvLast | src/executor/unit.js:68-70 | One more entry under a new key is appended after the others |
| Unit.SandboxRoundTrip | src/executor/unit.js:39-87 | Sandboxing settings in normal form and unsandboxing the record gives back the start command, the directory and the environment strings |
| Unit.TrailingSlashAsWritten | src/executor/unit.js:43 | As written, a directory with a trailing slash gives an empty working directory, while one without keeps its path |
| Unit.TrailingSlashFixed | src/executor/unit.js:43 | With the slash cut off as intended, the directory reads back without it |
| RunnerCode.EngineArg | src/executor/runnercode.js:12-270 | `runConfigCodeFeatures` returns no argument exactly for keys that set none, and throws exactly for a Java version without a binary |
| RunnerCode.EngineAliases | src/executor/runnercode.js:123-124 | `go`/`golang`, `rust`/`rustlang` and `jdk`/`java` choose the same argument |
| RunnerCode.OffVerbatim | src/executor/runnercode.js:79 | `off` comes back verbatim from every key that sets an argument |
| RunnerCode.WebiSuffix | src/executor/runnercode.js:109-115 | The webinstall suffix is empty, `@stable`, or `@` followed by the requested version, which can be read back from it |
| RunnerCode.CrRun | src/executor/runnercode.js:288 | A match of `\r[ \r]+\r` ends in a carriage return |
| RunnerCode.LineRest | src/executor/runnercode.js:288 | `.*` stops exactly at the first line terminator |
| RunnerCode.DropFromCr | src/executor/runnercode.js:288 | After the replacement no carriage return or NUL character is left |
| RunnerCode.Clean | src/executor/runnercode.js:288 | The cleaned chunk holds no carriage return or NUL character |
| RunnerCode.CleanKeeps | src/executor/runnercode.js:288 | Text without carriage returns or NUL characters passes unchanged |
| RunnerCode.CountOfAppend | src/executor/runnercode.js:290 | Counting line feeds over two pieces adds their counts |
| RunnerCode.NthIndexOf | src/executor/runnercode.js:292 | The index found holds the character and is its `n`-th occurrence |
| RunnerCode.SkipSpec | src/executor/runnercode.js:289-299 | Exactly `skip` lines are dropped when the chunk has that many, ending the skipping; otherwise the whole chunk goes and its line feeds come off the counter |
| RunnerCode.HandleKeeps | src/executor/runnercode.js:281-340 | Every chunk keeps the line flag true to the output and the skip counter non-negative |
| RunnerCode.HandleAppends | src/executor/runnercode.js:281-340 | The writer only ever appends |
| RunnerCode.Silent | src/executor/runnercode.js:300-338 | With neither `write` nor `debug`, nothing is written |
| RunnerCode.PromptClosesLine | src/executor/runnercode.js:321-325 | When a prompt arrives and output is on, the log ends on a complete line |
| RunnerCode.PlainWritten | src/executor/runnercode.js:326-337 | Ordinary output is written cleaned; a lone line feed is written only to close an open line |
| RunnerCode.PromptWritesBefore | src/executor/runnercode.js:316-320 | A prompt repeating the remembered one writes just the text before it |
| RunnerCode.SshSession.constructor | src/executor/runnercode.js:275-279 | A session starts with the skip count, an empty prompt, a complete line and no output |
| RunnerCode.SshSession.WriteOut | src/executor/runnercode.js:318 | Writing appends to the output and changes nothing else |
| RunnerCode.SshSession.SkipLines | src/executor/runnercode.js:289-299 | The skip step leaves the chunk and counter that `Skip` defines and writes nothing |
| RunnerCode.SshSession.EchoChunk | src/executor/runnercode.js:300-311 | The debug echo closes an open line, then writes each piece quoted |
| RunnerCode.SshSession.EchoPieces | src/executor/runnercode.js:306-310 | The loop writes each non-empty piece quoted, in order |
| RunnerCode.SshSession.PromptChunk | src/executor/runnercode.js:312-325 | A prompt chunk updates the session as `Prompt` defines |
| RunnerCode.SshSession.PlainChunk | src/executor/runnercode.js:326-338 | Ordinary output updates the session as `Plain` defines |
| RunnerCode.SshSession.HandleSshOutput | src/executor/runnercode.js:281-340 | `handleSshOutput` returns whether the prompt matched and leaves the session that `Handle` defines |
| RunnerSub.DomainPrefix | src/executor/runnersub.js:41 | The prefix is "db" for the root domain or a server without a parent, otherwise the subdomain minus "." and the parent |
| RunnerSub.PrefixOfChild | src/executor/runnersub.js:41 | A subdomain `p.<parent>` gets the prefix `p` |
| RunnerSub.DbSuffixOfDomain | src/executor/runnersub.js:125 | A database of the root domain keeps the bare name; one of `p.<parent>` is named `p_<name>` |
| RunnerSub.DbSubdomainSharesRootNames | src/executor/runnersub.js:41-42 | A subserver literally called `db.<parent>` gets the same database names as the root domain |
| RunnerSub.SqlSandboxSafe | src/executor/runnersub.js:96-99 | In a sandbox the database feature never disables, drops or changes a password |
| RunnerSub.SqlParentDisabled | src/executor/runnersub.js:92-95 | With the parent's feature off, a subserver only gets the "Problem" line |
| RunnerSub.SqlCreateNamed | src/executor/runnersub.js:123-134 | `create X` ends with the creation of the database named after the prefix and the trimmed `X`, which becomes the run's `dbname` |
| RunnerSub.SqlDropNamed | src/executor/runnersub.js:137-144 | `drop X` on an enabled subserver outside a sandbox deletes exactly that one database |
| RunnerSub.Rename | src/executor/runnersub.js:59-73 | A rename is refused exactly when, outside the root and the sandbox, the new name does not end with the parent or a new user is asked for |
| RunnerSub.RenameStaysUnderParent | src/executor/runnersub.js:61-64 | A subserver of a parent stays one across any accepted rename |
| RunnerSub.WithAction | src/executor/runnersub.js:356-358 | After the prefixing every DNS line starts with "add " or "del " |
| RunnerSub.ActionWords | src/executor/runnersub.js:361 | "del" maps to the delete action and "add" to the add action |
| RunnerSub.ActionWord | src/executor/runnersub.js:359-361 | A line that carries its action splits into that action word and the rest |
| RunnerSub.ActionOfLine | src/executor/runnersub.js:361 | The record's action is "del" exactly when the line started with "del " |
| RunnerSub.NormAction | src/executor/runnersub.js:352-366 | A normalised record is a deletion exactly when its line started with "del " |
| RunnerSub.FourParts | src/executor/runnersub.js:359 | Three space-free words and a remainder split into exactly those four parts |
| RunnerSub.FourPartsAt | src/executor/runnersub.js:359 | The four-way split of an action, type, name and value gives back those parts |
| RunnerSub.ThreeParts | src/executor/runnersub.js:359 | The split past the action word gives back type, name and value |
| RunnerSub.FirstWord | src/executor/runnersub.js:356 | A line starts with `w` and a space only when `w` is its first word |
| RunnerSub.NormDelete | src/executor/runnersub.js:356-366 | `del type name value` normalises to a deletion of that record, value kept whole, type and name lower-cased |
| RunnerSub.NormDefaultAdd | src/executor/runnersub.js:356-366 | A line without an action word normalises to an addition of that record |
| RunnerSub.NormIdempotent | src/executor/runnersub.js:352-366 | Normalising again changes nothing |
| RunnerSub.NormalizeRecords | src/executor/runnersub.js:352-366 | The loop normalises every entry where it stands |
| RunnerSub.UpdateEach | src/executor/runnersub.js:352-366 | Updating the array in place leaves each entry mapped by the function |
| RunnerSub.DnsOffSandboxAsWritten | src/executor/runnersub.js:321-334 | As written, a sandboxed "dns off" logs the denial and then disables DNS anyway |
| RunnerSub.DnsSandboxFixed | src/executor/runnersub.js:321-334 | Corrected, a sandboxed run never disables DNS |
| RunnerSub.DnsRecordsOnlyAtRoot | src/executor/runnersub.js:344-368 | Records are written only for the root domain, and then as the normalised list |
| RunnerSub.HttpOption | src/executor/runnersub.js:426-440 | Corrected (with `setDirect` available and the current value known): `parseInt` without a radix must give 1 or 3; an equal current value leaves the config alone, any other is applied |
| RunnerSub.HttpLenient | src/executor/runnersub.js:429 | `parseInt` reads the leading number only: "3abc" and " 1" are accepted as versions 3 and 1, and "2" is refused |
| RunnerSub.HttpHex | src/executor/runnersub.js:429 | Without a radix, "0x3" and "0X1" are read in base 16 and accepted as 3 and 1 |
| RunnerSub.WwwOption | src/executor/runnersub.js:441-454 | Corrected (with `setDirect` available and the current value known): the www value must be one of off/on/enforce/always and is applied unless equal to the current one |
| RunnerSub.HttpAsWritten | src/executor/runnersub.js:426-440 | As written, the http feature always throws: an invalid value as refused, any valid one at the missing `setDirect` |
| RunnerSub.WwwAsWritten | src/executor/runnersub.js:441-454 | As written, the www feature always throws: an invalid value as refused, any valid one at the missing `setDirect` |
| RunnerSub.OptionsAsWrittenThrow | src/executor/runnersub.js:426-454 | "http 3" and "www on" throw as written and are applied when corrected |
| RunnerSub.DropLeadingSlashes | src/executor/runnersub.js:576 | The leading run of '/' is removed and nothing else |
| RunnerSub.DropTrailingSlashes | src/executor/runnersub.js:576 | The trailing run of '/' is removed and nothing else |
| RunnerSub.DropLeadingOf | src/executor/runnersub.js:576 | Any number of leading slashes before a path not starting with '/' goes |
| RunnerSub.DropTrailingOf | src/executor/runnersub.js:576 | Any number of trailing slashes after a path not ending with '/' goes |
| RunnerSub.RootStripsSlashes | src/executor/runnersub.js:576 | On the root domain any number of surrounding slashes is removed and nothing else |
| RunnerSub.RootSubserverPrefix | src/executor/runnersub.js:577-580 | On a subserver, "/domains/<sub>/p/" names the same directory as "p" |
| RunnerSub.SourceType | src/executor/runnersub.js:684-690 | Corrected, every `ssh://` URL without an explicit type is a clone |
| RunnerSub.SshUrlAsWritten | src/executor/runnersub.js:685 | As written, `ssh://host/repo` with no `.git`, not on a git host, is downloaded as an archive |
| RunnerSub.SshUrlFixed | src/executor/runnersub.js:685 | Corrected, every ssh URL without an explicit type is cloned |
| RunnerSub.DepthFlags | src/executor/runnersub.js:718-720 | No depth or "blobless" filters blobs, "treeless" trees, "shallow" clones one commit, anything else adds nothing |
| RunnerSub.SourcePlan | src/executor/runnersub.js:672-747 | Other than "clear", the plan fails exactly when the pattern refuses the URL, `new URL` throws on it, or the fragment it needs does not decode, with that error; otherwise it starts with clearing the directory |
| RunnerSub.SchemeLessRefusedByParse | src/executor/runnersub.js:674-683 | A scheme-less URL such as "github.com/u/r" passes the pattern and is refused by `new URL` |
| RunnerSub.ExtractEndsWithChmod | src/executor/runnersub.js:723-746 | An extract plan always ends by opening the permissions of what it unpacked, after downloading the URL (without the fragment when the fragment names the directory) |
| RunnerSub.ClonePlanShape | src/executor/runnersub.js:692-722 | A clone plan is the clearing command and a single `git clone … .` of the repository |
| RunnerSub.CloneBranchDecoded | src/executor/runnersub.js:700-717 | A branch taken from the fragment is `decodeURI` of it, and the URL is cloned without the fragment |
| RunnerSub.PassesCoverAll | src/executor/runnersub.js:645-652 | Every feature runs exactly once across the main and the ssl passes |
| RunnerSub.PassesSplit | src/executor/runnersub.js:791-797 | The ssl pass holds only ssl lines and the main pass none |
| RunnerSub.FirewallBracket | src/executor/runnersub.js:749-789 | With a source and the firewall on, the rule is lifted before the source commands and put back after them, whether or not a command failed |
| RunnerSub.MainLoop | src/executor/runnersub.js:645-652 | The main loop runs every feature but the ssl lines, in order |
| RunnerSub.SslLoop | src/executor/runnersub.js:791-797 | The loop of the `finally` block runs the ssl lines, in order |
| RunnerSub.RunConfig | src/executor/runnersub.js:597-799 | The run performs its steps in the order `Trace` lists them |
| RunnerSub.RootMoved | src/executor/runnersub.js:630-641 | A `{root}` feature is appended only for a non-empty root text, and last; with no non-empty `nginx.root` or `root` the features are left as they were |
| RunnerSub.RunFront | src/executor/runnersub.js:643-664 | Before the `try` block: the html directory, the main feature pass, nginx and unit, in that order |
| RunnerSub.JoinEndsWithLast | src/executor/runnersub.js:761 | A join ends with its last part |
| RunnerSub.EnvLine | src/executor/runnersub.js:759-761 | The environment line ends by setting `DATABASE` to the run's database name |
| Runner.KeyOfWords | src/executor/runner.js:190-191 | `key value` splits back into that key and that value |
| Runner.KeyOfWord | src/executor/runner.js:190-191 | A feature line with no space is all key, with the empty value |
| Runner.KeyOfRejoin | src/executor/runner.js:190-191 | Splitting loses nothing: a line with a space is its key, a space and its value |
| Runner.Status | src/executor/runner.js:182-187 | `firewallStatus` answers from the cache when it is set, and always leaves the answer cached |
| Runner.RunNext | src/executor/runner.js:189 | The run over one more feature is one more step of the loop |
| Runner.SandboxNoAdmin | src/executor/runner.js:196 | A sandboxed run never issues a domain-level command |
| Runner.DeleteEndsRun | src/executor/runner.js:248-257 | Once a delete has run, later features change nothing |
| Runner.FirewallOffCached | src/executor/runner.js:394-397 | `firewall off` makes every later status read false without asking iptables |
| Runner.RenameMovesRule | src/executor/runner.js:204-220 | A rename to a new user on a protected domain moves the firewall rule from the old user to the new one |
| Runner.RunFeatures | src/executor/runner.js:188-258 | The loop over the features gives the events and the status cache of `Run`, stopping at a delete |
| Runner.DbChoice | src/executor/runner.js:280-292 | The database created is named after `config.subdomain` or "db" when the feature is first enabled, `X` verbatim for `create X`, and none is created otherwise |
| Runner.DbChoiceDefault | src/executor/runner.js:287 | Enabling the feature on a domain without `config.subdomain` creates the database "db" |
| Runner.DbChoiceUntrimmed | src/executor/runner.js:289-290 | `create X` is taken verbatim, untrimmed |
| Runner.DbFeature | src/executor/runner.js:263-300 | "off" disables the feature exactly when it is enabled; otherwise a chosen name is created and no choice creates nothing |
| Runner.DnsFeature | src/executor/runner.js:339-384 | A list value ends with the normalised records being set; DNS is disabled exactly for "off" on an enabled domain |
| Runner.NodeArg | src/executor/runner.js:434-456 | No suffix exactly for "off"; otherwise "", "@lts", or "@" followed by the value |
| Runner.NodeArgVersion | src/executor/runner.js:446-447 | Every value other than the reserved words reaches the installer with an "@" prefix |
| Runner.OldType | src/executor/runner.js:803-810 | The older default type is always "clone" or "extract" |
| Runner.OldPlan | src/executor/runner.js:794-854 | Other than "clear", the older plan fails exactly when the pattern refuses the URL, `new URL` throws on it, or the fragment it needs does not decode, with that error; otherwise it starts with `rm -rf *` |
| Runner.OldPlanTarXzAsZip | src/executor/runner.js:843-849 | The older planner unpacks a `.tar.xz` archive as a zip |
| Runner.OldExtractDirDecoded | src/executor/runner.js:838-853 | The older extract moves up `decodeURI` of the fragment and downloads the URL without it |
| Runner.OldBracketLeavesRuleOff | src/executor/runner.js:855-864 | A failing source command leaves a protected user without its firewall rule |
| Runner.OldBracketRestores | src/executor/runner.js:855-864 | Without a failure the rule is lifted first and restored last |
| Docker.EnableDocker | src/executor/docker.js:30-42 | A lingering user gets "Done unchanged" and no command; any other gets the sub-id grant and lingering, and "Updated for docker" |
| Docker.DisableDocker | src/executor/docker.js:46-58 | A user not lingering gets "Done unchanged" and no command; any other loses the sub-ids and lingering |
| Docker.DisableMirrorsEnable | src/executor/docker.js:35-55 | Disabling runs exactly the enabling commands with each grant turned into its revocation |
| Docker.Ipv4 | src/executor/docker.js:66 | The address is `10.a.b.c` |
| Docker.SplitFour | src/executor/docker.js:66 | Four words joined by a character none of them holds split back into the four |
| Docker.Ipv4Octets | src/executor/docker.js:61-66 | The address splits back into "10" and the three octets, each read back as its number |
| Docker.GenerateRandomIPv4 | src/executor/docker.js:59-68 | The address is `10.a.b.c` with each octet in 0..255 |
| Docker.ConvertPort | src/executor/docker.js:89-110 | A rewritten entry always binds the site's address over tcp; an error, naming the service, exactly for a string that is not "N", "S:D" or "127.0.0.1:S:D"; a non-string entry targets 0 |
| Docker.PortSingle | src/executor/docker.js:97-98 | "N" targets N and publishes on the drawn port |
| Docker.PairSplit | src/executor/docker.js:99-100 | "S:D" for two numbers splits into them |
| Docker.PortPair | src/executor/docker.js:99-102 | "S:D" targets D and publishes on S |
| Docker.HostPairSplit | src/executor/docker.js:104 | `host:S:D` for a host without ':' splits into the host and the two numbers |
| Docker.LoopbackSplit | src/executor/docker.js:103-104 | "127.0.0.1:S:D" is not a pair, so only the loopback pattern takes it |
| Docker.PortLoopback | src/executor/docker.js:103-106 | "127.0.0.1:S:D" targets D and publishes on S |
| Docker.PortWithProtocol | src/executor/docker.js:107-108 | A protocol suffix is not understood: "80/udp" is an error |
| Docker.TryAll | src/executor/docker.js:88-113 | Applying the rewrite to every entry keeps the length, or gives the first error |
| Docker.TryEach | src/executor/docker.js:88-113 | Every element is replaced in place, stopping at the first error |
| Docker.ConvertAll | src/executor/docker.js:88-113 | A service's entries are rewritten one for one, and the rewrite fails exactly when some entry is not understood |
| Docker.ConvertPorts | src/executor/docker.js:88-113 | The loop replaces each entry where it stands and fails exactly when `ConvertAll` does |
| Docker.RewriteOne | src/executor/docker.js:85-87 | A service that is not an object or has no ports is passed unchanged; ports that are not a non-empty list are an error |
| Docker.RewriteAll | src/executor/docker.js:85-114 | Every service is kept, in order, with its ports bound to the site's address |
| Docker.RewriteAllErrSticky | src/executor/docker.js:85-114 | An error in a prefix of the services is the error of the whole list |
| Docker.RewriteEntry | src/executor/docker.js:86-113 | One service's port list, copied into an array and rewritten there, gives `RewriteOne` |
| Docker.RewriteAllNext | src/executor/docker.js:85 | The list one service longer is the shorter list's result followed by that service's |
| Docker.RewriteServices | src/executor/docker.js:83-114 | The loop over the services gives `RewriteAll` |
| Docker.RootIndexByPaths | src/executor/docker.js:116 | Location lists with the same paths have their "/" location at the same place |
| Docker.WithRoot | src/executor/docker.js:116-123 | After the lookup there is always a "/" location |
| Docker.SelectProxy | src/executor/docker.js:124-131 | The proxy choice keeps the locations and the place of "/", and fails only with no exposed port |
| Docker.ProxyFixedTargetsExposed | src/executor/docker.js:125-129 | With the intended test the "/" location forwards to a port that is published |
| Docker.ProxyAsWrittenKeepsStale | src/executor/docker.js:125 | As written, a `docker:` proxy whose port is no longer published is kept |
| Docker.ProxyAsWrittenOverridesChoice | src/executor/docker.js:125-129 | As written, a proxy already on a published port is moved to the last one |
| Docker.Compose | src/executor/docker.js:74-136 | With `setDirect` assumed to exist (the as-written rewrite is ComposeAsWritten): the services are bound to the chosen address, the nginx info records it, and a new address always means nginx is written |
| Docker.ComposeAsWritten | src/executor/docker.js:74-136 | As written, the rewrite always rejects: with the first port or proxy error, or else at the missing `setDirect` |
| Docker.AsWrittenWriteFails | src/executor/docker.js:79-133 | As written, a rewrite that gets past the ports and the proxy has to write nginx, and rejects at `setDirect` |
| Docker.RewriteAsWritten | src/executor/docker.js:74-136 | As written, `rewriteServices` never resolves, whatever the services and the site, with a generated `10.a.b.c` address |
| Docker.Rewrite | src/executor/docker.js:74-136 | Corrected (intended proxy test, the nginx info written): a site with an address keeps it; one without gets a generated `10.a.b.c` and nginx is written |
| Docker.ComposeWith | src/executor/docker.js:83-131 | The port rewrite and the proxy choice with the address settled give `Compose` |
| Docker.ExecuteAsWritten | src/executor/docker.js:158-161 | As written, the compose file is written with no services, since the un-awaited Promise is serialised, and no rewrite error is seen |
| Docker.ExecuteFixed | src/executor/docker.js:158-161 | Corrected, the compose file holds exactly the rewritten services, and a rewrite error is passed on |
| Docker.UnawaitedRewriteLost | src/executor/docker.js:158-161 | As written, a compose file with services loses them; awaited, it keeps every one, bound to the site's address |
| LineFile.Lines | src/executor/redis.js:64 | Reading a line file gives at least one line, none holding a line feed |
| LineFile.ReadBack | src/executor/redis.js:89 | Lines written with a trailing line feed read back as themselves when the first and last survive the trim |
| LineFile.FirstLineSolid | src/executor/portman.js:44 | A file whose trim is not empty starts with a line that survives the trim |
| LineFile.ReadAppended | src/executor/portman.js:44-54 | Lines appended and written back are read back after the old lines; an empty file's single empty line is lost |
| Redis.AclRulesWords | src/executor/redis.js:9-12 | The rules set the password, confine keys to `name:*` and channels to `name:`, then list the same categories for every account |
| Redis.Entry | src/executor/redis.js:67-70 | A line read as an entry is exactly `uid:name` |
| Redis.EntryOf | src/executor/redis.js:67-70 | `uid:name` reads back as that pair when neither part holds a ':' |
| Redis.Owner | src/executor/redis.js:66-76 | The owner found has an entry naming the account; none means no entry names it |
| Redis.OwnerAppended | src/executor/redis.js:86 | A name no entry holds is owned by whoever it is appended for |
| Redis.EntryIndex | src/executor/redis.js:105-111 | The index found holds `uid:name` and no earlier line does; -1 exactly when no line does |
| Redis.FindOwner | src/executor/redis.js:65-76 | The `some` callback reports whether the name is taken, and whether by this uid |
| Redis.FindEntry | src/executor/redis.js:105-111 | The `findIndex` gives `EntryIndex` |
| Redis.Show | src/executor/redis.js:46-53 | One name per listed line, each the line with its `uid:` prefix cut off |
| Redis.AddSpec | src/executor/redis.js:58-93 | `add` fails exactly when another uid owns the name, and writes the file exactly when nobody does |
| Redis.Add | src/executor/redis.js:62-92 | The method gives `AddSpec` |
| Redis.AddThenOwned | src/executor/redis.js:86-89 | After an add writes the file, the file names the uid as the owner |
| Redis.AddTwiceUnchanged | src/executor/redis.js:77-80 | A second add of the same account by the same uid writes nothing |
| Redis.DelSpec | src/executor/redis.js:98-127 | `del` fails exactly when the line `uid:name` is absent, and otherwise flushes the keys of its pattern |
| Redis.DelRemovesFirst | src/executor/redis.js:115-117 | `del` removes the first line equal to `uid:name`, and only that line |
| Redis.Del | src/executor/redis.js:102-124 | The method gives `DelSpec` with the corrected key pattern |
| Redis.DelFlushesAccountKeys | src/executor/redis.js:122-124 | With the intended pattern, `del` flushes exactly the keys the account's rules allow it |
| Redis.DelFlushesWrongKeysAsWritten | src/executor/redis.js:122-124 | As written, `del` flushes the keys under the system user's name, not the account's |
| Redis.AddThenDel | src/executor/redis.js:58-127 | An add followed by a delete of the same account restores the lines of a non-empty file |
| Redis.AbsentLine | src/executor/redis.js:66-76 | A name with no owner has no `uid:name` line |
| Redis.PasswdSpec | src/executor/redis.js:135-155 | `passwd` fails exactly when the line is absent, never writes the file, and sets the new password |
| Redis.Passwd | src/executor/redis.js:139-154 | The method gives `PasswdSpec` |
| Portman.ListPorts | src/executor/portman.js:19-27 | Every listed entry has two parts |
| Portman.Pairs | src/executor/portman.js:25-26 | Only two-part cuts are kept |
| Portman.ListedLine | src/executor/portman.js:25 | A line cuts into two parts exactly when it holds a ':', as the part before the first ':' and the rest |
| Portman.ListedPairs | src/executor/portman.js:22-26 | The listing holds every two-part cut of a line and nothing else |
| Portman.ListedEntry | src/executor/portman.js:25 | `uid:port` is listed as that pair |
| Portman.ListPortsExtended | src/executor/portman.js:28-36 | One entry per listed pair, with the owner's name (or the uid) and whether the port listens |
| Portman.Wanted | src/executor/portman.js:47 | One `uid:port` line per requested port, in order |
| Portman.WritePorts | src/executor/portman.js:41-61 | The loop gives the file and message of `WriteSpec` |
| Portman.WantedMembers | src/executor/portman.js:46-47 | Every requested port's line is looked for, and every line looked for is a requested port's |
| Portman.WriteAdds | src/executor/portman.js:46-56 | The file written holds the old lines, then each requested allocation it lacked, once each |
| Portman.WriteUnchanged | src/executor/portman.js:57-58 | Nothing is written when every allocation is already there |
| Portman.PortLineSolid | src/executor/portman.js:47 | An allocation line has no line break and no surrounding white space |
| Portman.WriteIdempotent | src/executor/portman.js:41-61 | Writing the same allocations again changes nothing |
| Portman.AppendedSolid | src/executor/portman.js:49 | Every line appended is an allocation line |
| Podman.Check | src/executor/podman.js:17-28 | A missing file reads as not enabled and is created holding root; otherwise the file is kept |
| Podman.Enable | src/executor/podman.js:32-46 | An enabled user gets "Done unchanged" and no change; otherwise their name is appended and the sub-ids granted |
| Podman.Disable | src/executor/podman.js:50-64 | A user not enabled gets "Done unchanged" and no change; otherwise their lines go and the sub-ids are revoked |
| Podman.EnabledLines | src/executor/podman.js:37 | The file enabling writes is the old lines, trimmed as a whole, then the user and an empty line |
| Podman.EnableThenEnabled | src/executor/podman.js:32-46 | After enabling, the user is enabled, and enabling again changes nothing |
| Podman.DisabledLines | src/executor/podman.js:55-56 | The file disabling writes is the old lines without the user's, then an empty one |
| Podman.DisableThenDisabled | src/executor/podman.js:50-64 | After disabling, the user is no longer enabled, every other line is kept, and disabling again changes nothing |
| Podman.EnableMissingFile | src/executor/podman.js:21-22 | A missing file is created holding root, so enabling writes root and the user |
| Podman.DisableUndoesEnable | src/executor/podman.js:32-64 | Disabling revokes exactly the grant that enabling gives |
| Pulse.DropLast | src/executor/pulse.js:6 | `splice(length - 1)` removes the last element, and an empty array stays empty |
| Pulse.Test.constructor | src/executor/pulse.js:3 | The test record starts with the given logs and fixes |
| Pulse.RecordKeepsOthers | src/executor/pulse.js:17-18 | Recording one field of `fixes` sets it and leaves every other field as it was |
| Pulse.PoolOfAlert | src/executor/pulse.js:9 | An `ALERT: [pool N]` line yields the pool N |
| Pulse.PoolsFrom | src/executor/pulse.js:8-14 | A pool is listed exactly when some line of the log is an alert naming it |
| Pulse.PhpScan | src/executor/pulse.js:5-16 | The scan stops within the logs, and goes through all of them unless it throws |
| Pulse.PhpScanStops | src/executor/pulse.js:6-7 | Once the scan has thrown, the later logs change nothing |
| Pulse.PhpScanFails | src/executor/pulse.js:6-7 | The scan throws exactly when some log is empty, and it stops at such a log |
| Pulse.PhpEditsNeedFailure | src/executor/pulse.js:7 | Nothing is edited unless some log ends with the FPM failure |
| Pulse.PhpEditsAreAlerts | src/executor/pulse.js:7-14 | Every pool edited is named by an alert line before the failure line ending one of the logs, and with no empty log every such pool is edited |
| Pulse.ScanPools | src/executor/pulse.js:8-14 | The alert pools of one log, in order, each moved aside as it is found |
| Pulse.PopNext | src/executor/pulse.js:6 | Popping the next log's last line extends the popped prefix by one |
| Pulse.ScanLog | src/executor/pulse.js:6-15 | The pools of one log whose last line is popped, each moved aside as it is found |
| Pulse.PhpScanNext | src/executor/pulse.js:5-16 | The scan through one more non-empty log adds that log's pools |
| Pulse.CleanAppend | src/executor/pulse.js:11-12 | One clean-up command per edit stays so when both grow together |
| Pulse.PopLogs | src/executor/pulse.js:5-16 | The loop pops each log's last line in turn and stops at the end or the first empty log |
| Pulse.ScanFpms | src/executor/pulse.js:5-16 | The whole scan gives the popped logs, the pools edited and moved aside, and whether it threw |
| Pulse.FixPhp | src/executor/pulse.js:3-19 | `fixPHP` leaves each fpm log without its last line and records the pools edited as `fixes.fpm` |
| Pulse.LastOccurrence | src/executor/pulse.js:33 | The last place, up to a bound, at which the text occurs, or 0 |
| Pulse.ConfNameOf | src/executor/pulse.js:33 | The hit for a site's configuration file names that site |
| Pulse.CertEditsFromHits | src/executor/pulse.js:26-40 | Every site edited is named by a hit of a certificate some log line failed to load |
| Pulse.ConfsFrom | src/executor/pulse.js:32-38 | A site is among the names of the hits exactly when some hit names it |
| Pulse.CertCommands | src/executor/pulse.js:26-40 | Every certificate line runs one `grep`, followed by one clean-up per site it names |
| Pulse.ScanConfs | src/executor/pulse.js:32-38 | The hits of one certificate, each naming a site moved aside as it is found |
| Pulse.FixNginx | src/executor/pulse.js:21-44 | `fixNGINX` leaves the nginx log without its last line and records the sites edited as `fixes.nginx` |
| Update.LessIrreflexive | src/binaries/update.js:99 | The default string comparison of `sort` puts no string before itself |
| Update.LessTransitive | src/binaries/update.js:99 | The comparison is transitive |
| Update.LessTotal | src/binaries/update.js:99 | Any two different strings are ordered one way or the other |
| Update.LessBlocks | src/binaries/update.js:99 | Strings starting with blocks of one length compare by the blocks first, then by the rest |
| Update.Insert | src/binaries/update.js:99 | Inserting adds exactly the one element |
| Update.InsertSorted | src/binaries/update.js:99 | Inserting into a sorted list keeps it sorted |
| Update.Sort | src/binaries/update.js:99 | The sort returns its input rearranged, in the order of the default comparison |
| Update.SortSemver | src/binaries/update.js:98-101 | `sortSemver` returns as many versions as it is given |
| Update.RunsHead | src/binaries/update.js:99-100 | The replacement of a text that does not start with a digit starts as the text does |
| Update.RunsRoundTrip | src/binaries/update.js:99-100 | Padding and unpadding give back the text with every number written without leading zeros |
| Update.CanonicalDigits | src/binaries/update.js:100 | A number written without leading zeros is written back as it was |
| Update.NormalizedCanonical | src/binaries/update.js:99-100 | A text whose numbers have no leading zeros is its own normal form |
| Update.RoundTrip | src/binaries/update.js:99-100 | Padding and unpadding give back a text whose numbers have no leading zeros |
| Update.SortSemverPermutation | src/binaries/update.js:98-101 | `sortSemver` rearranges its inputs, each with its numbers written without leading zeros |
| Update.SortSemverCanonical | src/binaries/update.js:98-101 | When no number has a leading zero, `sortSemver` returns a rearrangement of its input |
| Update.DigitsOrder | src/binaries/update.js:99 | Strings of digits of one length compare as their values do |
| Update.VersionPadded | src/binaries/update.js:99 | Padding a version pads each of its components |
| Update.BlocksOrder | src/binaries/update.js:99 | Padded versions of one shape with components below 900000 compare as the numbers do |
| Update.SortSemverOrdered | src/binaries/update.js:98-101 | In the output, of two versions of one shape with components below 900000 the lower comes first |
| Update.PermutationDistinct | src/binaries/update.js:43-47 | A rearrangement of a list without repeats has none |
| Update.Newest | src/binaries/update.js:47 | The list sorted by `sortSemver` and reversed keeps its length |
| Update.NewestOfFound | src/binaries/update.js:42-47 | The versions found, each once, are exactly the versions listed, without repeats |
| Update.NewestFirst | src/binaries/update.js:47 | In the listed order, of two versions of one shape the newer stands first |
| Update.GatherRuby | src/binaries/update.js:39-50 | The Ruby loop pushes each version found unless listed, then sorts newest first |
| Update.LatestTag | src/binaries/update.js:52-58 | The release tag is the one the latest-release document names, else the built-in one |
| Update.PythonKeys | src/binaries/update.js:62-67 | The versions of the Python map are the versions found, each once, in order |
| Update.PythonFirstWins | src/binaries/update.js:63-64 | A version maps to the download address of the first file found for it |
| Update.GatherPython | src/binaries/update.js:52-71 | The Python loop maps each new version to its file and lists the versions newest first |
| Update.JavaKeys | src/binaries/update.js:75-80 | The versions of the Java map are the versions found, each once, in order |
| Update.JavaLastWins | src/binaries/update.js:76 | A version maps to the link of the last asset found for it |
| Update.GatherJava | src/binaries/update.js:72-81 | The Java loops assign every asset's link to its version, then list the versions newest first |
| Update.InitUtils | src/binaries/update.js:37-91 | A failed tag or Java request rejects the whole run; otherwise the metadata holds the three lists and two maps as gathered |
| Util.TokenSecret | src/util.js:10 | The expected header always starts with "Bearer " |
| Util.AllowIps | src/util.js:11-14 | No address list exactly when `ALLOW_IP` is unset or empty; otherwise exactly the comma-separated addresses |
| Util.AuthAsWrittenForbidsAll | src/util.js:19-30 | As written, every request is answered 403, an authorized one after being handed on |
| Util.AuthAsWrittenExample | src/util.js:19-30 | A request with the right token from an allowed address still gets the 403 |
| Util.CheckAuthPasses | src/util.js:19-30 | Corrected, a request passes exactly when it carries the bearer token and comes from a listed address when a list is set; any other gets 403 |
| Util.UnsetSecretAccepted | src/util.js:19-30 | With no secret configured, `Bearer undefined` is accepted from anywhere |
| Util.CheckFields | src/util.js:37-52 | A check passes exactly when every required field is set and truthy |
| Util.CheckFieldsFirst | src/util.js:37-52 | A refusal is a 400 naming the first missing or falsy field, in list order |
| Util.CheckPost | src/util.js:58-73 | A request without a body is refused with "missing post data"; otherwise the fields are checked as `checkGet` does |
| Util.CheckFieldsMore | src/util.js:37-52 | Requiring more fields passes exactly where both checks pass |
| Sudokill.UserEnd | sudokill.js:49 | The user column ends within the line |
| Sudokill.SpacedDigits | sudokill.js:49 | A number column read after its spaces is a non-empty run of digits |
| Sudokill.UserEndOf | sudokill.js:49 | A user name followed by a character outside the name's alphabet is read whole as the user column |
| Sudokill.UserEndSound | sudokill.js:49 | What is read as the user column is a user name: name characters, with at most a trailing `+` |
| Sudokill.SpacedDigitsOf | sudokill.js:49 | Spaces then digits then a non-digit read back as exactly those digits and the rest |
| Sudokill.SpacedDigitsSound | sudokill.js:49 | A number column read is preceded by spaces and followed by a non-digit or the end |
| Sudokill.ParseColumns | sudokill.js:49-57 | A `ps` line laid out in the user, pid, elapsed-time and command columns parses to those fields, the elapsed time as its number |
| Sudokill.ParseStages | sudokill.js:49 | A line that parses has a non-empty user column followed by two spaced number columns |
| Sudokill.Layout | sudokill.js:49 | The pieces read off a line put back together give the line |
| Sudokill.ParseSound | sudokill.js:49-57 | A line that parses is laid out in the columns, and the process fields are those columns |
| Sudokill.IgnoreSet | sudokill.js:28-42 | The spared users are root, the comma-separated `--ignore` names when given, and the lingering users, and no others |
| Sudokill.ListedMembers | sudokill.js:50-57 | A process is listed exactly when some `ps` line parses to it and its user is not spared |
| Sudokill.LeadingName | sudokill.js:60 | The name read from a `who` line is a non-empty prefix of name characters, and there is none exactly when the line is empty or starts with another character |
| Sudokill.LoggedInMembers | sudokill.js:59-61 | A user counts as logged in exactly when some `who` line starts with that name |
| Sudokill.NobodyLoggedInThrows | sudokill.js:23-26 | With nobody logged in, the `who` output splits into one empty line and the loop as written throws on it |
| Sudokill.LoggedInAgrees | sudokill.js:59-61 | When every `who` line starts with a name, the loop as written and the corrected loop add the same users |
| Sudokill.AddLoggedIn | sudokill.js:59-61 | The loop adds to the spared users exactly the users logged in |
| Sudokill.Candidates | sudokill.js:64 | A process is a candidate exactly when it is listed and has run over three hours, or over a minute with an unindented command and a user not spared |
| Sudokill.KillAll | sudokill.js:66-72 | In test mode no command is run; otherwise one `kill -9` per candidate, in order |
| Sudokill.NobodyLoggedInKillsNothing | sudokill.js:59-61 | As written, the script kills nothing when nobody is logged in, whatever `ps` shows |
| Sudokill.Run | sudokill.js:18-72 | With the corrected `who` loop of the sudokill.js:59-61 finding: the script runs exactly the kill commands of the specification of the whole run |
| Sudokill.TestKillsNothing | sudokill.js:66-68 | In test mode nothing is killed |
| Sudokill.KilledExactly | sudokill.js:28-64 | With the corrected `who` loop of the sudokill.js:59-61 finding: a process is killed exactly when a `ps` line parses to it, its user is neither root, nor ignored, nor lingering, and it ran over three hours, or over a minute unindented and outside a session |
| Sudokill.KillsOfCandidates | sudokill.js:64-72 | The commands of a run are `kill -9` of each candidate's pid, in the candidates' order |
| Sudokill.NobodyLoggedInFixed | sudokill.js:59-64 | Corrected, with nobody logged in every candidate that is not spared is still killed |
| Sudocleanssl.MatchedMembers | sudocleanssl.js:29-30 | A row is kept exactly when some listed line matches the expiry pattern as that row |
| Sudocleanssl.RowsFromSixthLine | sudocleanssl.js:29-30 | The rows come only from the sixth line of the listing on: the five header lines never count |
| Sudocleanssl.FindRow | sudocleanssl.js:38-42 | The row found is one of the rows, for the domain; none exactly when no row names the domain |
| Sudocleanssl.NoRowNoTarget | sudocleanssl.js:38-42 | A domain in renewal without an expiry row is skipped |
| Sudocleanssl.TargetOnlyWhen | sudocleanssl.js:43-50 | A domain is acted on only when its first row is expired or under 30 days (the count read by `parseInt` without a radix, so `0x` reads hexadecimal), its details name an issue date over a day old, and then its file is the one the details name |
| Sudocleanssl.TargetWhen | sudocleanssl.js:43-50 | A due domain whose details carry an issue line over a day old and a file line is acted on, on that file |
| Sudocleanssl.CaptureLine | sudocleanssl.js:45-46 | `lead(.+)` captures the rest of the line after the first occurrence of the lead |
| Sudocleanssl.MatchLine | sudocleanssl.js:45-46 | A text that starts with the lead and then a non-empty line matches with that line |
| Sudocleanssl.IndexFrom | sudocleanssl.js:56 | The position found is the first occurrence at or after the start, or -1 when there is none |
| Sudocleanssl.RemoveFirstOccurrence | sudocleanssl.js:56 | A text without the pattern is unchanged; otherwise exactly one occurrence, the first, is removed |
| Sudocleanssl.DropFlagLine | sudocleanssl.js:56 | The first renewal flag line is cut out of the file text and nothing else changes |
| Sudocleanssl.RemoveFirstAt | sudocleanssl.js:56 | The occurrence removed is the first one |
| Sudocleanssl.DropFlagAbsent | sudocleanssl.js:56-57 | A file without the flag is written back unchanged |
| Sudocleanssl.CleanRenewals | sudocleanssl.js:29-66 | The script's loop writes the files and counts the edits as the specification of the whole run does |
| Sudocleanssl.CleanDomains | sudocleanssl.js:37-66 | The loop over the domains in renewal agrees with the specification, domain by domain |
| Sudocleanssl.VisitDomain | sudocleanssl.js:38-65 | One pass of the loop body is one step of the specification: an edit and a count only for a target outside test mode |
| Sudocleanssl.TestChangesNothing | sudocleanssl.js:51-54 | In test mode no file is written and nothing is counted |
| Sudocleanssl.CountIsTargets | sudocleanssl.js:58 | Outside test mode the count is the number of domains acted on |
| Sudocleanssl.CleanFiles | sudocleanssl.js:56-57 | Every file ends up having lost one renewal flag for each domain that targeted it; files no domain targeted are untouched |
| Sudocleanssl.FlagRemovedOnce | sudocleanssl.js:56-57 | A file one domain targets ends up as its text with the flag line cut out |
| Sudocleanssl.Summary | sudocleanssl.js:68-73 | The closing log says nothing changed exactly when no domain was edited |
| Sudocleanssl.TestSummary | sudocleanssl.js:68-69 | A test run always ends with the nothing-changed summary |
| Deployd.PeerCredLinux | deployd/peercred_linux.go:16-32 | The descriptor is duplicated exactly when the connection's file is obtained |
| Deployd.PeerCredDarwin | deployd/peercred_darwin.go:33-65 | The descriptor is duplicated exactly when the connection's file is obtained |
| Deployd.PeerCredCloses | deployd/peercred_linux.go:17-32 | On both platforms the duplicate is closed on every return, credentials come exactly from a successful getsockopt (and, on Darwin, a record of the expected version), and a file error is passed on |
| Deployd.PlatformsAgree | deployd/peercred_darwin.go:60-64 | For the same peer both platforms report the same uid and gid; Darwin reports pid -1 |
| Deployd.Startup | deployd/main.go:18-33 | Start-up is three steps |
| Deployd.StartupSteps | deployd/main.go:18-33 | The socket file is removed and listened on, defaults applying; the daemon serves exactly when a secret is set, and otherwise panics with "SECRET env is required" |
| Deployd.Forward | deployd/main.go:58-78 | The handler always forwards: a POST to the runner for the stored uid, never a failure |
| Deployd.UriNamesUser | deployd/main.go:66 | The upstream address names the peer's uid and reads back as it; different uids give different addresses |
| Deployd.ForwardSends | deployd/main.go:58-78 | A POST to the runner for the peer's uid with the bearer secret and the body unchanged; the reply is plain text, chunked, with the upstream body or none |
| Deployd.ConnCredentials | deployd/main.go:44-52 | As written, a connection stores what getsockopt read, or the zero record (uid 0) when the read failed; the pointer is never nil |
| Deployd.ConnAgreesWithPeerCred | deployd/main.go:44-52 | The stored credentials are those getPeerCred reports when it succeeds, and the zero record when it fails |
| Deployd.FailedReadForwardsRoot | deployd/main.go:46-66 | As written, a connection whose credentials could not be read is forwarded as uid 0 with the bearer secret |
| Deployd.ConnCredentialsFixed | deployd/main.go:44-52 | Corrected, a connection has credentials exactly when getsockopt read them, and then the same ones |
| Deployd.ForwardFixed | deployd/main.go:58-78 | Corrected, the handler refuses exactly the connections without credentials, and forwards the others for their uid |
| Deployd.FixedForwardsOnlyReadUid | deployd/main.go:44-78 | Corrected, a request is forwarded exactly when the peer's credentials were read, for that uid, as the source forwards it |
| Deployd.Server.constructor | deployd/main.go:40-53 | A new server has the port and secret, no connection yet and no failed read |
| Deployd.Server.ConnContext | deployd/main.go:44-52 | Each new connection has its credentials recorded as written (the zero record on a failed read), a failed read is noted, and each duplicated descriptor is counted |
| Deployd.Server.Handle | deployd/main.go:58-78 | As written, a request is always forwarded for the connection's recorded credentials |
| Deployd.Server.HandleFixed | deployd/main.go:58-78 | Corrected, a request on a connection whose read failed is refused; any other is handled as the source does |
| Deployd.SameConnectionSameUser | deployd/main.go:44-78 | Every request on a connection goes to the runner for the uid stored when the connection was accepted |

## Left out

- Locks (`executeLock`): concurrency. Each locked body is modelled as one atomic step.
- `spawnSudoUtil`, child processes and shelljs file I/O (`cat`, `ShellString.to`, `exec`): their inputs and outputs are parameters, fields of the executor classes, or returned commands.
- `src/helpers/named.js` (`parse`, `generate`) is not part of this model: a zone is held as its parsed records, and the generated text is a parameter.
- `NamedExecutor.show` and `NamedExecutor.resync`: each is a single `NAMED_GET` or `NAMED_SYNC` spawn with nothing to decide.
- `NginxExecutor.get` and `set`: the nginx-conf library's file parsing and writing are out of scope. Their logic (`findServ`, then `extractInfo` and `applyInfo`) is modelled on the directive tree.
- `UnitExecutor.get`, `set` and `del`: HTTP calls to the Unit control socket. `setDomain` is modelled as the call it plans.
- `DockerExecutor.executeServices`: YAML parsing and the file writes are left out. The services it writes are modelled (`ExecuteAsWritten`, `ExecuteFixed`). As written it does not await `rewriteServices`, which is a listed finding.
- `Math.random`: a parameter (`draw`) or a nondeterministic choice within 0..255 or the source's port range.
- The Redis client (`aclGenPass`, `aclSetUser`, the Lua key-deleting script) and `id -u`: each outcome records what would be sent, and the password and uid are parameters.
- Redis.AddSpec: the first add to an empty file writes a leading blank line, as the source does, because `"".split("\n")` is `[""]`. `AddThenDel` is therefore stated for non-empty files only.
- Podman.Check: a user name equal to the empty string is not distinguished from the empty last line of the file.
- Pulse: the `grep` run is a parameter and the clean-up spawns are returned as commands.
- Pulse.PhpScan: an empty fpm log makes the source throw a `TypeError`. The model marks the scan as failed at that log and does not carry the error value. The fpm logs are a sequence in `Object.entries` order.
- Update.SortSemverOrdered: JavaScript number precision above 2^53 and UTF-16 code-unit order are not modelled. Components of 900000 or more are excluded, because the padding of the source breaks the order there.
- Update: the integer-like key ordering of `Object.keys` is not modelled. Maps keep their keys in insertion order.
- IptablesParser.RuleRoundTrip: stated only for rules without an integer-like key (a key of digits such as "60"). `Object.keys` lists such keys first, so the source writes the rule starting with that key and drops it on the next parse (a listed finding). RuleRoundTripInOrder states the round trip for the corrected, assignment-order encoder.
- IptablesParser.EncodedRuleLine: stated only for rules without an integer-like key; with one, the line starts with a digit (IndexKeyNotRuleLine).
- IptablesParser.TableRoundTrip: stated only for tables whose rules have no integer-like key; with one, the rule is lost (IndexKeyRuleDropped).
- IptablesParser.ParseEncodeDoc: stated only for documents whose rules have no integer-like key and whose table names are not integer-like. `Object.keys` would also list such a table first.
- IptablesHelpers.ParseEncodeDoc: stated only for documents whose block names are not integer-like, since `Object.values` lists those blocks first.
- IptablesExecutor.GetRaw: stated only for documents without integer-like keys, as IptablesParser.ParseEncodeDoc.
- IptablesExecutor.AddStep: stated only for documents without integer-like keys, as IptablesParser.ParseEncodeDoc. The rule added for a user has none.
- IptablesExecutor.AddThenDelete: stated only for documents without integer-like keys, as IptablesParser.ParseEncodeDoc.
- Virtualmin.Merged: the merged object keeps its keys in assignment order and is only read with `Get`. Its listing order, with integer-like keys first, is applied where `Object.entries` reads it (ExecFormatted).
- Unit.SandboxRoundTrip: stated only for environments without integer-like names. `Object.entries` lists those first, so the strings come back in another order.
- Docker.RewriteAll: the services are given as the sequence `Object.entries(services)` yields, integer-like names first. The YAML parse that builds the object is a parameter.
- Strings.Lower: `toLowerCase` and `toUpperCase` are modelled on ASCII letters only (Strings.Upper likewise). Other characters are kept as they are, where JavaScript maps them by the full Unicode tables ("ß" upper-cases to "SS", "ſ" to "S"). Strings.LowerOfUpper therefore holds in the source only for ASCII texts, and RunnerSub.NormDelete, Named.ZoneFile.ApplyMod and Runner.DnsFeature lower-case or upper-case record types and names only in their ASCII letters.
- Strings.LowerOfUpper: holds for the ASCII mapping only. Under JavaScript's mapping "ſ" upper-cases to "S" and then lower-cases to "s", not back to "ſ".
- RunnerSub.NormDelete: the lower-cased type and name are ASCII lower-casing; a non-ASCII letter in them is kept as written rather than mapped as `toLowerCase` would.
- Named.ZoneFile.ApplyMod: the action, record type and domain are case-mapped in their ASCII letters only, as Strings.Lower and Strings.Upper.
- Runner.DnsFeature: record types and names are case-mapped in their ASCII letters only, as Strings.Lower and Strings.Upper.
- Update: the HTTP downloads that feed the version lists are parameters (the versions found, in page order).
- Util.Truthy: keys inherited from `Object.prototype` (such as `constructor`) are not distinguished from missing ones. Query and body values are reduced to strings, numbers, booleans, null and structured values.
- Util.TokenSecret: with SECRET unset, the source accepts the header `Bearer undefined` (`UnsetSecretAccepted`). The model keeps this behaviour rather than correcting it.
- Sudokill.IgnoreSet: user names that collide with `Object.prototype` keys (such as `constructor`) are not modelled. They would count as ignored in the source.
- Sudokill: the test-mode `console.log` of the ignored users and `console.table` of the candidates are logs only.
- Sudokill: the `ps` line pattern is modelled directly on `seq<char>`, with `\w` as ASCII letters, digits and `_`.
- Sudocleanssl: the expiry-row pattern is an extractor parameter. `Date.parse` and `Date.now()` are parameters. A fatal `exec` failure ends the script and is not modelled.
- Sudocleanssl: the per-domain console logs are left out. This includes the test-mode skip message of line 61, whose operator precedence divides only the issue date by the day length; it affects a log line only.
- `sudoutil.js`: the privileged shell dispatcher is a foreign call. `isDfFull` uses floating point.
- Express routers and app wiring (`src/controllers/*`, `src/index.js`, `app.js`), `src/iptables/index.js`, `src/named/index.js`, `src/request.js`, the root `runner.js` loop, `logman.js` and `screend.js`: I/O plumbing or duplicates of the executors.
- RunnerSub: the `modify` and `delete` subserver actions, and the `redis`/`valkey`, `php` and `ssl` features, are not modelled; they are calls to virtualmin and the executors with no decision beyond the call. `getDbName` and `escapeShell` are parameters.
- Runner: the `docker`/`podman`, `python`, `ruby`, `java`, `php`, `ssl` and `root` features, and the language installers other than Node, are not modelled. Their version arguments are modelled in `RunnerCode`.
- Runner and RunnerSub: virtualmin, nginx, named and ssh side effects are planned as steps and not performed. The subserver `php` and `ssl` features (runnersub.js:402, 559) and the runner's `ssl` feature (runner.js:748) end in a call to `nginxExec.setDirect`, which the nginx executor does not define. They are not modelled. The same call in the http and www features and in docker is a listed finding. `Date`, timeouts and the SSL renewal branch's fractional days are left out.
- RunnerCode.HandleSshOutput: the prompt regular expression is a parameter; the writer is modelled as the text it receives.
- Deployd.ConnContext: the source ignores both errors. A failed `File()` leaves a nil file whose `Fd()` is -1, and that is what the model passes to getsockopt. A failed getsockopt still yields a pointer to a zeroed record, because Go's `syscall.GetsockoptUcred` returns the address of its local `Ucred` with the error. The duplicated descriptor is never closed, so the model only counts the duplicates. The `unread` field is what the corrected handler needs; the source keeps no such record.
- Named.ArrayKey: names inherited from `Object.prototype` (`constructor`, `toString`, `hasOwnProperty` and the like) are truthy keys of the source's `arrayKey` and `mapKey` objects. The model treats them as unknown types, so "a list name exists exactly for the ten types" holds only for types that are not such names.
- Named.ZoneFile.GetArrayOf: for a type named like an inherited `Object.prototype` member, the source does not throw `Unknown type` (named.js:80); it uses the inherited function as the list name. The model throws for it.
- Named.EditAlwaysThrows: for a type named like an inherited `Object.prototype` member, both lookups at named.js:115-116 are truthy and `add`/`del` call the inherited function instead of throwing. The lemma states the throw for every type, so it does not cover those names.
- Strings.SplitLimit: `splitLimit` is imported from `src/util.js`, which does not define it. It is assumed to cut `s` at its first `n - 1` separators and to keep the remainder whole in the last piece, separators included. Unit.EnvBack, Unit.SandboxRoundTrip, Portman.ListedLine, Runner.KeyOfWords, RunnerSub.FourPartsAt and RunnerSub.NormDelete hold under that definition.
- RunnerCode.CountOf: `countOf` is imported from `src/util.js`, which does not define it. It is assumed to count the occurrences of a character. RunnerCode.CountOfAppend and RunnerCode.SkipSpec hold under that definition.
- RunnerCode.NthIndexOf: `nthIndexOf` is imported from `src/util.js`, which does not define it. It is assumed to give the index of the `n`-th occurrence of a character, counting from 1.
- Named.AppendRecord: `appendIfNotExist`, `deleteIfExist` (named.js) and `deleteIfNotExist` (iptables.js) are imported from `src/util.js`, which does not define them. They are assumed to compare whole records, to append at the end or remove the first equal record, and to report whether the list changed. Named.DeleteRecord, Named.AddThenDelFixed and IptablesExecutor.ApplyEdit rest on the same assumption.
- RunnerSub.SourcePlan: `new URL` and `decodeURI` are parameters, given as their results (none where they throw). Which texts the URL parser accepts, and how it serialises them, is not modelled. The same holds for Runner.OldPlan.
- RunnerSub.HttpOption: the corrected version takes the current http value as a parameter. The source compares with `nginxInfos.http`, which `extractInfo` never sets (HttpAsWritten). RunnerSub.WwwOption does the same for `www`.
- Docker.Rewrite: the corrected rewrite assumes that the nginx info carries the site's docker address and that it is written back. `extractInfo` never sets `docker_ip` and `setDirect` does not exist; ComposeAsWritten models that.
- Docker.Compose: its Ok result assumes a `setDirect` that writes the nginx info; as written every Ok of it becomes the `setDirect` TypeError (ComposeAsWritten).
- Deployd: sockets, the HTTP server and client, and streaming (`net.Listen`, `Serve`, `client.Do`, `io.Copy`) are left out. A listener error is ignored by the source and is not modelled.
- Deployd.Forward: how Go's HTTP server treats the hand-set `Transfer-Encoding` header is not modelled; the header is recorded as set.
- Deployd: `main.go` reads `SO_PEERCRED` directly and so builds only on Linux. The Darwin `getPeerCred` is modelled on its own.

## Findings

| source | as written | input that shows it | evidently intended | confidence | as-written member | corrected member |
|---|---|---|---|---|---|---|
| src/parsers/iptables.js:77 | `encodeRule` writes the pairs in `Object.keys` order, which puts integer-like keys first, so the rule line no longer starts with `-A` | `-A INPUT -m recent --update --seconds 60 --hitcount 4 --name SSH --rsource -j DROP`: keys "60" and "4" are written first, and `parseTable` drops the line | write the pairs in the order the parser assigned them, the "mirror image" the encoder's comment promises | high (not executed) | IptablesParser.RecentRuleDropped | IptablesParser.RuleRoundTripInOrder |
| src/executor/iptables.js:58 | The IPv6 step of `setAddUser` calls `IPTABLES_GET`, which copies the live IPv4 rules over `.tmp/iptables` and leaves `.tmp/ip6tables` stale | `setAddUser("alice")` with no rule for alice: the IPv4 edit is overwritten by the live text, yet "Updated for iptables" is reported | `IP6TABLES_GET` | high (not executed) | IptablesExecutor.AddedRuleLost | IptablesExecutor.AddedRuleKept |
| src/executor/named.js:115-116 | `add` and `del` look up `getArrayOf` with the record type as given and `mapKey` with the same key, so one of the two lookups always fails | `add(zone, "www", "A", "1.2.3.4")`: throws, and the zone is never edited | one lookup keyed by the upper-case type, the other by its lower-case name | high (not executed) | Named.EditAlwaysThrows | Named.AddThenDelFixed |
| src/executor/nginx.js:39-62 | `expandLocation` reads `info.user` and `info.fastcgi` from the settings record of the level it writes, which `extractInfo` never fills below the server | a server with `fastcgi` set: after `applyInfo` then `extractInfo`, the fastcgi address is gone | the server's user and fastcgi address passed down to every level | medium (not executed) | NginxServer.AsWrittenLosesFcgi | NginxServer.RoundTripFixed |
| src/executor/unit.js:43 | `wd.substring(0, -1)` gives the empty string | `app_root` "app/": the working directory becomes "" | `wd.slice(0, -1)`, dropping the last character | high (not executed) | Unit.TrailingSlashAsWritten | Unit.TrailingSlashFixed |
| src/executor/runnersub.js:322-333 | `} if (subenabled)` has no `else`, so the denial is only logged | `dns off` in a sandbox on an enabled subserver: DNS is disabled | `} else if (subenabled)` | high (not executed) | RunnerSub.DnsOffSandboxAsWritten | RunnerSub.DnsSandboxFixed |
| src/executor/runnersub.js:685 | `url.protocol == 'ssh'` is never true: the URL parser reports `ssh:` | `ssh://host/repo`, not ending in `.git` and not on a known git host: planned as an archive download | `url.protocol == 'ssh:'` | high (not executed) | RunnerSub.SshUrlAsWritten | RunnerSub.SshUrlFixed |
| src/executor/docker.js:125 | the proxy is replaced when its port IS among the published ones, and kept when it is not | proxy `docker:2000` while only port 3000 is published: nginx keeps forwarding to 2000 | replace it when its port is not published (`!exposedPorts.includes(...)`) | high (not executed) | Docker.ProxyAsWrittenKeepsStale | Docker.ProxyFixedTargetsExposed |
| src/executor/redis.js:122-124 | `del` flushes the keys under `${user}:*`, the system user's name | `del("alice", "cache")`: the keys of `cache:*` stay and those of `alice:*` go | `${name}:*`, the account's own key space | high (not executed) | Redis.DelFlushesWrongKeysAsWritten | Redis.DelFlushesAccountKeys |
| src/util.js:26-30 | the 403 after the `if` has no `else`, so it is sent after `next()` too | an authorized request: handed on, then answered 403 | return after `next()` | high (not executed) | Util.AuthAsWrittenForbidsAll | Util.CheckAuthPasses |
| sudokill.js:59-61 | `item.match(/^[\w.-]+/)[0]` throws when a `who` line has no leading name | nobody logged in: `who` prints nothing, its one line is "", and the script throws before killing anything | skip lines without a name | high (not executed) | Sudokill.NobodyLoggedInKillsNothing | Sudokill.NobodyLoggedInFixed |
| deployd/main.go:49 | the getsockopt error is discarded, and `syscall.GetsockoptUcred` returns a pointer to a zeroed record with it, so the handler forwards `user=0` with the bearer secret | a connection whose `File()` or getsockopt fails: the runner is called for uid 0, root | refuse the request when the credentials cannot be read | high (not executed) | Deployd.FailedReadForwardsRoot | Deployd.FixedForwardsOnlyReadUid |
| src/executor/docker.js:79-133 | `extractInfo` (nginx.js:164-205) never sets `docker_ip`, so an address is always generated and nginx always written, through `nginxExec.setDirect`, which the nginx executor does not define | services `{web: {ports: ["80"]}}`: `rewriteServices` rejects with a TypeError | read the site's address and write nginx through a setter that exists | high (not executed) | Docker.AsWrittenWriteFails | Docker.Rewrite |
| src/executor/runnersub.js:433-452 | the http and www features compare with `nginxInfos.http`/`www`, which `extractInfo` never sets, and then call the undefined `nginxExec.setDirect` | `http 3` or `www on`: the run throws a TypeError and nginx is unchanged | compare with the current setting and write nginx through a setter that exists | high (not executed) | RunnerSub.OptionsAsWrittenThrow | RunnerSub.HttpOption |
| src/executor/docker.js:160 | `rewriteServices` is async and is not awaited, so `composeObject.services` is a Promise | any compose services: the file is written with an empty `services` mapping, and a rewrite error is never seen | `await this.rewriteServices(...)` | medium (not executed) | Docker.ExecuteAsWritten | Docker.ExecuteFixed |
