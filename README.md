# simpledns view resolution, modelled in Dafny

This project models the sequential split-horizon "view" engine of the
`simpledns` CoreDNS plugin. For each query it:

- classifies the client address into the first configured client group that has a containing CIDR prefix;
- looks the query name up, exactly as received, in that group's zone table;
- answers with one CNAME from the query name to the entry's value;
- unless the query asked for the CNAME itself, appends whatever the upstream resolver returns for that value.

It also models the code that builds the tables:

- `parse`, which folds the plugin's option lines into settings;
- `loadConfig`, which rebuilds the ACL list and the per-group zone tables from already-parsed client and record rows;
- `NewZoneRecord`, which maps a case-insensitive type string to an RR type code (section 3.2.2 of RFC 1035 and section 2.1 of RFC 3596).

Files and modules:

- `wrappers.dfy` (`Wrappers`): `Option` and `Result`.
- `dns.dfy` (`Dns`, `Net`): 16- and 32-bit integers, RR type codes, response codes, resource records, upstream replies, and IP prefixes with a masked-prefix `Contains`.
- `types.dfy` (`Types`): `ClientACL`, `Zones`, `Zone`, raw rows and `NewZoneRecord`.
  The table types mirror the declarations of package `simpledns` (simpledns.go:30-47); types.go, in package `views`, declares the same shapes.
  `NewZoneRecord` comes from types.go and is not called by simpledns.go or setup.go.
  The entries the resolver stores are built by `loadConfig`'s own conversion, `Setup.LoaderZone`. There TXT gives type code 0, not the 16 of `NewZoneRecord`.
- `setup.dfy` (`Setup`): `Atoi`, the `Parse` method and its specification `ParseSpec`, and the specification of the tables `loadConfig` builds (setup.go).
- `simpledns.dfy` (`SimpleDns`): the per-query specification `Resolve`, its lemmas, the `Upstream` collaborator and the `SimpleDNS` class with `LoadConfig`, `DoLookup`, `Lookup` and `ServeDNS` (simpledns.go, setup.go).

Collaborators are parameters:

- The host-name normaliser is `normalize: string -> string`.
- CIDR parsing is `parseCidr: string -> Option<IPNet>`.
- The upstream resolver is an `Upstream` object. A `respond` function gives its reply to each (name, type), and a `queries` field logs every call, so the contracts can say when it is called and how often.
- Whether the reply could be written is the `written` flag of `ServeDNS`.

Behaviour of the code worth knowing, which the model follows:

- The lookup key is the query name as the host runtime hands it over. It is not normalised again.
- A CIDR prefix that does not parse aborts the load (`log.Fatalf`). It is not skipped.
- A row with an unknown record type is kept by `loadConfig`, with type code 0. It is not dropped.
- `loadConfig`'s own type switch has no TXT case, so it stores TXT rows with type code 0. `NewZoneRecord` gives them code 16. `Setup.LoaderZoneVersusNewZoneRecord` states both differences. Nothing in the lookup reads the type code.
- A matched group with no entry is an error. Later groups are not tried.
- `parse` fails only when both file names are empty. One of them is enough.

## Model

| member | source | states |
|---|---|---|
| `Types.NewZoneRecord` | types.go:99-122 | a result always carries one of the four codes A, AAAA, CNAME, TXT; its name and value are the normalised row name and value; its TTL is the row's; an error carries the row name and the upper-cased type |
| `Types.ToUpperMatchesIff` | types.go:100 | upper-casing a type string gives an upper-case keyword exactly when the string spells that keyword in some casing |
| `Types.NewZoneRecordCaseInsensitive` | types.go:100-111 | "a", "aaaa", "cname", "txt" in any casing, and only they, give an entry with the A, AAAA, CNAME, TXT code respectively |
| `Types.NewZoneRecordRejectsOthers` | types.go:112-113 | any other type string, the empty string included, gives an error and no zone |
| `Setup.AtoiFormatInt` | setup.go:92-95 | every 64-bit integer written in decimal is read back by the reload option's integer parsing as that integer |
| `Setup.Parse` | setup.go:69-111 | the loops over blocks and option lines compute exactly `ParseSpec`: the settings or the first error |
| `Setup.LastIndexIsLast` | setup.go:87-96 | the option line whose value is kept is the last line with that key, and there is none only when no line has the key |
| `Setup.ParseRejectsMalformed` | setup.go:86-99 | the first option with an unknown key, no argument, or a non-integer reload value makes `parse` fail with that option's error |
| `Setup.ParseAcceptsWellFormed` | setup.go:75-110 | with well-formed options the result is reload 5 and empty names unless set, the last setting of each option wins, and it fails only when both file names are empty |
| `Setup.ParseOkIsFinal` | setup.go:103-110 | a successful parse saw only well-formed options, its settings are those of the last lines, and at least one file name is set |
| `Setup.ParseDefaultReload` | setup.go:75-78 | without a reload option a successful parse has reload 5 |
| `Setup.ParsePrefixesShape` | setup.go:151-158 | a group's prefixes parse all or nothing: every prefix in order, or the error names the first one that does not parse |
| `Setup.BuildACLsShape` | setup.go:147-164 | the ACL list has one group per raw client in input order with its name and its prefixes in input order, and exists exactly when every prefix parses |
| `Setup.BuildZonesNames` | setup.go:168-193 | a group's `Names` are the normalised row names in row order, duplicates kept |
| `Setup.BuildZonesKeys` | setup.go:193-194 | a group's map has exactly the names of `Names` as keys |
| `Setup.BuildZonesLastWins` | setup.go:186-194 | each name maps to the entry built from the last row carrying it |
| `Setup.BuildClientZonesKeys` | setup.go:166-198 | the zone tables are keyed by exactly the record-group names |
| `Setup.BuildClientZonesLastWins` | setup.go:197 | a group name used more than once holds the table of its last group |
| `Setup.LoaderZoneVersusNewZoneRecord` | setup.go:174-191 | the loader agrees with `NewZoneRecord` on A, AAAA and CNAME rows, stores TXT rows with code 0 where `NewZoneRecord` gives 16, and stores every row `NewZoneRecord` rejects with code 0 |
| `SimpleDns.Classify` | simpledns.go:79-81 | a chosen group index is in range and that group has a prefix containing the client address |
| `SimpleDns.ClassifyIsFirstMatch` | simpledns.go:78-106 | group g is chosen exactly when it has a containing prefix and no earlier group has one |
| `SimpleDns.ClassifyNone` | simpledns.go:78-107 | no group is chosen exactly when no prefix of any group contains the address |
| `SimpleDns.PassThrough` | simpledns.go:118-133 | the upstream's answer section is passed on unchanged whatever the response code (NXDOMAIN, SERVFAIL, empty success); a transport error or a missing message gives nothing |
| `SimpleDns.NoGroupFallsThrough` | simpledns.go:78-111 | with no containing prefix the lookup fails with "no record found", asks the upstream nothing, and the query goes to the next handler |
| `SimpleDns.FirstMatchWins` | simpledns.go:79-104 | the result is the answer of the first group with a containing prefix, even when that answer is an error |
| `SimpleDns.LaterGroupsIgnored` | simpledns.go:104 | appending groups after a matching one changes neither the chosen group, the result, nor the upstream call |
| `SimpleDns.ResolveInFirstMatch` | simpledns.go:84-102 | in the first matching group: no entry for the exact name (or no table) is "no client zone", an empty value is "no record value", otherwise the CNAME alone for a CNAME query, or the CNAME followed by the upstream's records |
| `SimpleDns.ResolveOkStartsWithCname` | simpledns.go:93-97 | a success is never empty and starts with the CNAME with owner the query name, the query class, the entry's TTL and the entry's value as target |
| `SimpleDns.DelegationMatchesAnswer` | simpledns.go:99-102 | a CNAME query is never delegated; a delegated query's answer is the CNAME followed by the upstream's records for the delegated target; an undelegated success is a CNAME query with one record |
| `SimpleDns.ServeAnswersExactly` | simpledns.go:53-69 | the handler replies exactly when the lookup succeeds and the write succeeds, authoritatively, with success code and exactly the lookup's (non-empty) records |
| `SimpleDns.InternalGroupExample` | simpledns.go:75-113 | a client in 100.64.0.0/10 asking for an alias gets the CNAME plus the upstream's records for the target; 8.8.8.8 matches no group |
| `SimpleDns.Upstream.Lookup` | simpledns.go:117 | the reply is the upstream's reply to (target, type), and the call is logged |
| `SimpleDns.SimpleDNS.constructor` | setup.go:75-110 | the plugin starts with the parsed settings, the given upstream and empty tables |
| `SimpleDns.SimpleDNS.LoadConfig` | setup.go:131-200 | on success the ACL list and the zone tables become the specified tables and the settings are unchanged; a bad prefix is fatal, leaves the zone tables as they were and the ACL list holding the groups before the failing one |
| `SimpleDns.SimpleDNS.DoLookup` | simpledns.go:116-134 | asks the upstream once about (target, type) and returns `PassThrough` of its reply |
| `SimpleDns.SimpleDNS.Lookup` | simpledns.go:75-114 | the nested first-match scan with its labelled break returns exactly `Resolve`, and asks the upstream exactly once when `Delegation` names a target and never otherwise |
| `SimpleDns.SimpleDNS.ServeDNS` | simpledns.go:50-70 | the handler's outcome is `Respond` of the lookup, with the same upstream calls |

## Left out

- The concurrent fan-out variant (views.go) and its goroutines, wait groups and channels.
- The reload goroutine, its ticker and the shutdown channel (setup.go:113-129, setup.go:49-59): concurrency and timing. The non-positive reload interval that would make the ticker panic is therefore not modelled.
- Plugin registration and handler chaining (setup.go:41, setup.go:61-64). The next handler is the outcome `PassedToNext`.
- Reading the two files and YAML unmarshalling (setup.go:135-145): `LoadConfig` takes the already-parsed rows. The ignored `ReadFile` error and the fatal unmarshal errors are not modelled.
- Building and writing the DNS message (`dns.Msg`, `WriteMsg`): the reply is a `Response` value, and a failed write is the `written` flag.
- Logging (`log.Infof`, `log.Error`); `log.Fatalf` becomes the `Fatal` outcome of `LoadConfig`.
- `net.ParseCIDR`, `plugin.Host.Normalize` and `Upstream.Lookup` internals are parameters. Nothing is assumed about `normalize` (not idempotence, not lower-casing).
- `net.ParseIP` of the client address is not modelled: the client address is given parsed, and an address that fails to parse is not represented. IPv4-mapped IPv6 addresses are represented with width 32, as `IPNet.Contains` treats them.
- `Types.NewZoneRecord`: `strings.ToUpper` is modelled on ASCII letters only. No non-ASCII character upper-cases to a letter of A, AAAA, CNAME or TXT, so which rows are accepted is unchanged. Only the upper-cased type in the error value can differ.
- `Setup.Parse`: the Caddy token stream is modelled as a sequence of blocks of option lines (key and arguments). Arguments on the directive line itself are ignored, as in the source. An option without an argument panics in the source (`RemainingArgs()[0]`); it is the `MissingValue` error here.
- The reload value is kept as the integer written (seconds); its `time.Duration` type is not modelled.
- cmd/seeds/main.go and cmd/coredns/main.go: an offline data generator and the server's `main`.
