/**
 * Configuration handling (setup.go): folding the plugin's directive options
 * into settings, and the specification of the tables `loadConfig` rebuilds
 * from already-parsed client and record rows.
 */
module Setup {
  import opened Wrappers
  import opened Dns
  import opened Net
  import opened Types

  // ---------------------------------------------------------------------------
  // strconv.Atoi
  // ---------------------------------------------------------------------------

  const MinInt64: int := -0x8000_0000_0000_0000
  const MaxInt64: int := 0x7fff_ffff_ffff_ffff

  predicate IsDigit(c: char) { '0' <= c <= '9' }

  predicate AllDigits(s: string) {
    forall i :: 0 <= i < |s| ==> IsDigit(s[i])
  }

  function DigitsValue(s: string): nat
    requires AllDigits(s)
  {
    if s == [] then 0 else 10 * DigitsValue(s[..|s| - 1]) + (s[|s| - 1] as int - '0' as int)
  }

  /**
   * Base-10 integer parsing: an optional sign, then one or more digits, the
   * value within 64 bits. Anything else is an error (None).
   */
  function Atoi(s: string): Option<int> {
    var body := if |s| > 0 && (s[0] == '-' || s[0] == '+') then s[1..] else s;
    if body == [] || !AllDigits(body) then None
    else
      var v: int := if |s| > 0 && s[0] == '-' then -(DigitsValue(body) as int) else DigitsValue(body);
      if MinInt64 <= v <= MaxInt64 then Some(v) else None
  }

  function Digit(d: nat): char
    requires d < 10
  {
    ('0' as int + d) as char
  }

  /** The decimal digits of `n`, without leading zeros. */
  function Decimal(n: nat): (s: string)
    ensures |s| >= 1 && AllDigits(s)
  {
    if n < 10 then [Digit(n)] else Decimal(n / 10) + [Digit(n % 10)]
  }

  /** The decimal form of an integer, as `strconv.Itoa` writes it. */
  function FormatInt(n: int): string {
    if n < 0 then "-" + Decimal(-n) else Decimal(n)
  }

  lemma {:induction false} DecimalValue(n: nat)
    ensures DigitsValue(Decimal(n)) == n
  {
    var s := Decimal(n);
    if n >= 10 {
      DecimalValue(n / 10);
      assert s[..|s| - 1] == Decimal(n / 10);
    }
  }

  /** Every 64-bit integer written in decimal reads back as itself. */
  lemma AtoiFormatInt(n: int)
    requires MinInt64 <= n <= MaxInt64
    ensures Atoi(FormatInt(n)) == Some(n)
  {
    if n < 0 {
      DecimalValue(-n);
      assert ("-" + Decimal(-n))[1..] == Decimal(-n);
    } else {
      DecimalValue(n);
    }
  }

  // ---------------------------------------------------------------------------
  // parse: directive options -> settings
  // ---------------------------------------------------------------------------

  /** One option line inside a `simpledns { ... }` block: its key and its arguments. */
  datatype Line = Line(key: string, args: seq<string>)

  /**
   * What `parse` fills in: the reload interval in seconds and the two source
   * file names. The rest of the struct (tables, upstream) is set elsewhere.
   */
  datatype Settings = Settings(reload: int, clientFilename: string, recordFilename: string)

  datatype ParseError =
    | UnknownArgument(key: string)
    | MissingValue(key: string)         // `RemainingArgs()[0]` on an option with no argument
    | WrongReloadFormat(arg: string)
    | RequiredMissing

  const DefaultReload: int := 5

  const Initial := Settings(DefaultReload, "", "")

  /** The option lines of all blocks, in order. */
  function Flatten(blocks: seq<seq<Line>>): seq<Line> {
    if blocks == [] then [] else Flatten(blocks[..|blocks| - 1]) + blocks[|blocks| - 1]
  }

  /** The effect of one option line on the settings built so far. */
  function ApplyLine(st: Settings, line: Line): Result<Settings, ParseError> {
    if line.key == "clients" then
      if |line.args| == 0 then Err(MissingValue(line.key)) else Ok(st.(clientFilename := line.args[0]))
    else if line.key == "records" then
      if |line.args| == 0 then Err(MissingValue(line.key)) else Ok(st.(recordFilename := line.args[0]))
    else if line.key == "reload" then
      if |line.args| == 0 then Err(MissingValue(line.key))
      else match Atoi(line.args[0])
        case None => Err(WrongReloadFormat(line.args[0]))
        case Some(d) => Ok(st.(reload := d))
    else Err(UnknownArgument(line.key))
  }

  /** The option lines applied in order; the first failing line ends the fold. */
  function ApplyLines(st: Settings, lines: seq<Line>): Result<Settings, ParseError> {
    if lines == [] then Ok(st)
    else match ApplyLines(st, lines[..|lines| - 1])
      case Err(e) => Err(e)
      case Ok(s) => ApplyLine(s, lines[|lines| - 1])
  }

  /** What `parse` returns for the given blocks. */
  function ParseSpec(blocks: seq<seq<Line>>): Result<Settings, ParseError> {
    match ApplyLines(Initial, Flatten(blocks))
    case Err(e) => Err(e)
    case Ok(s) => if s.clientFilename == "" && s.recordFilename == "" then Err(RequiredMissing) else Ok(s)
  }

  lemma {:induction false} FlattenAppend(a: seq<seq<Line>>, b: seq<seq<Line>>)
    ensures Flatten(a + b) == Flatten(a) + Flatten(b)
    decreases |b|
  {
    if b == [] {
      assert a + b == a;
    } else {
      var b' := b[..|b| - 1];
      assert (a + b)[..|a + b| - 1] == a + b';
      FlattenAppend(a, b');
    }
  }

  lemma {:induction false} ApplyLinesErrPersists(st: Settings, xs: seq<Line>, ys: seq<Line>)
    requires ApplyLines(st, xs).Err?
    ensures ApplyLines(st, xs + ys) == ApplyLines(st, xs)
    decreases |ys|
  {
    if ys == [] {
      assert xs + ys == xs;
    } else {
      var ys' := ys[..|ys| - 1];
      assert (xs + ys)[..|xs + ys| - 1] == xs + ys';
      ApplyLinesErrPersists(st, xs, ys');
    }
  }

  lemma ApplyLinesSnoc(st: Settings, xs: seq<Line>, line: Line)
    ensures ApplyLines(st, xs + [line]) ==
      match ApplyLines(st, xs) case Err(e) => Err(e) case Ok(s) => ApplyLine(s, line)
  {
    assert (xs + [line])[..|xs + [line]| - 1] == xs;
  }

  lemma FlattenNext(blocks: seq<seq<Line>>, i: nat)
    requires i < |blocks|
    ensures Flatten(blocks[..i + 1]) == Flatten(blocks[..i]) + blocks[i]
  {
    assert blocks[..i + 1][..i] == blocks[..i];
  }

  /** The lines read so far when the loops stand at line `j` of block `i`, and the rest. */
  lemma FlattenSplit(blocks: seq<seq<Line>>, i: nat, j: nat)
    requires i < |blocks| && j < |blocks[i]|
    ensures Flatten(blocks) ==
      (Flatten(blocks[..i]) + blocks[i][..j + 1]) + (blocks[i][j + 1..] + Flatten(blocks[i + 1..]))
  {
    assert blocks == blocks[..i] + ([blocks[i]] + blocks[i + 1..]);
    FlattenAppend(blocks[..i], [blocks[i]] + blocks[i + 1..]);
    FlattenAppend([blocks[i]], blocks[i + 1..]);
    assert Flatten([blocks[i]]) == blocks[i] by {
      assert [blocks[i]][..0] == [];
    }
    assert blocks[i] == blocks[i][..j + 1] + blocks[i][j + 1..];
  }

  /** A line that fails while the loops stand at line `j` of block `i` decides the result. */
  lemma ParseStopsAt(blocks: seq<seq<Line>>, i: nat, j: nat)
    requires i < |blocks| && j < |blocks[i]|
    requires ApplyLines(Initial, Flatten(blocks[..i]) + blocks[i][..j + 1]).Err?
    ensures ParseSpec(blocks) == ApplyLines(Initial, Flatten(blocks[..i]) + blocks[i][..j + 1])
  {
    var done := Flatten(blocks[..i]) + blocks[i][..j + 1];
    var rest := blocks[i][j + 1..] + Flatten(blocks[i + 1..]);
    FlattenSplit(blocks, i, j);
    ApplyLinesErrPersists(Initial, done, rest);
  }

  /**
   * Folds the option lines of every block into settings: clients and records
   * take the line's first argument, reload its integer value; an unknown key,
   * a missing argument or a non-integer reload fails; at the end at least one
   * file name must be set.
   */
  method Parse(blocks: seq<seq<Line>>) returns (r: Result<Settings, ParseError>)
    ensures r == ParseSpec(blocks)
  {
    var clientFilename, recordFilename := "", "";
    var reload := DefaultReload;
    var i := 0;
    while i < |blocks|
      invariant 0 <= i <= |blocks|
      invariant ApplyLines(Initial, Flatten(blocks[..i])) == Ok(Settings(reload, clientFilename, recordFilename))
    {
      var j := 0;
      assert Flatten(blocks[..i]) + blocks[i][..0] == Flatten(blocks[..i]);
      while j < |blocks[i]|
        invariant 0 <= j <= |blocks[i]|
        invariant ApplyLines(Initial, Flatten(blocks[..i]) + blocks[i][..j])
          == Ok(Settings(reload, clientFilename, recordFilename))
      {
        var line := blocks[i][j];
        var done := Flatten(blocks[..i]) + blocks[i][..j];
        assert Flatten(blocks[..i]) + blocks[i][..j + 1] == done + [line];
        ApplyLinesSnoc(Initial, done, line);
        var failure: Option<ParseError> := None;
        if line.key == "clients" {
          if |line.args| == 0 {
            failure := Some(MissingValue(line.key));
          } else {
            clientFilename := line.args[0];
          }
        } else if line.key == "records" {
          if |line.args| == 0 {
            failure := Some(MissingValue(line.key));
          } else {
            recordFilename := line.args[0];
          }
        } else if line.key == "reload" {
          if |line.args| == 0 {
            failure := Some(MissingValue(line.key));
          } else {
            var duration := Atoi(line.args[0]);
            if duration.None? {
              failure := Some(WrongReloadFormat(line.args[0]));
            } else {
              reload := duration.value;
            }
          }
        } else {
          failure := Some(UnknownArgument(line.key));
        }
        if failure.Some? {
          r := Err(failure.value);
          ParseStopsAt(blocks, i, j);
          return;
        }
        j := j + 1;
      }
      assert blocks[i][..j] == blocks[i];
      FlattenNext(blocks, i);
      i := i + 1;
    }
    assert blocks[..i] == blocks;
    if clientFilename == "" && recordFilename == "" {
      return Err(RequiredMissing);
    }
    return Ok(Settings(reload, clientFilename, recordFilename));
  }

  // ---------------------------------------------------------------------------
  // What parse accepts and what it yields
  // ---------------------------------------------------------------------------

  /** A line `ApplyLine` accepts: a known key with an argument, an integer for reload. */
  predicate WellFormed(line: Line) {
    && (line.key == "clients" || line.key == "records" || line.key == "reload")
    && |line.args| > 0
    && (line.key == "reload" ==> Atoi(line.args[0]).Some?)
  }

  predicate AllWellFormed(lines: seq<Line>) {
    forall k :: 0 <= k < |lines| ==> WellFormed(lines[k])
  }

  /** The error a malformed line produces. */
  function LineError(line: Line): ParseError
    requires !WellFormed(line)
  {
    if line.key != "clients" && line.key != "records" && line.key != "reload" then UnknownArgument(line.key)
    else if |line.args| == 0 then MissingValue(line.key)
    else WrongReloadFormat(line.args[0])
  }

  /** The position of the last line with the given key. */
  function LastIndex(lines: seq<Line>, key: string): (r: Option<nat>)
    ensures r.Some? ==> r.value < |lines| && lines[r.value].key == key
  {
    if lines == [] then None
    else if lines[|lines| - 1].key == key then Some(|lines| - 1)
    else LastIndex(lines[..|lines| - 1], key)
  }

  /** The argument of the last line with the key, or the default when there is none. */
  function LastValue(lines: seq<Line>, key: string, default: string): string
    requires AllWellFormed(lines)
  {
    match LastIndex(lines, key)
    case None => default
    case Some(k) => lines[k].args[0]
  }

  /** The settings well-formed lines produce: every field from the last line that sets it. */
  function FinalSettings(lines: seq<Line>): Settings
    requires AllWellFormed(lines)
  {
    Settings(
      match LastIndex(lines, "reload") case None => DefaultReload case Some(k) => Atoi(lines[k].args[0]).value,
      LastValue(lines, "clients", ""),
      LastValue(lines, "records", ""))
  }

  /** `LastIndex` finds the last line with the key, and finds none only if there is none. */
  lemma {:induction false} LastIndexIsLast(lines: seq<Line>, key: string)
    ensures LastIndex(lines, key).None? <==> forall j :: 0 <= j < |lines| ==> lines[j].key != key
    ensures LastIndex(lines, key).Some? ==>
      var k := LastIndex(lines, key).value;
      lines[k].key == key && forall j :: k < j < |lines| ==> lines[j].key != key
  {
    if lines != [] && lines[|lines| - 1].key != key {
      LastIndexIsLast(lines[..|lines| - 1], key);
    }
  }

  lemma {:induction false} ApplyLinesOkOnlyIfWellFormed(st: Settings, lines: seq<Line>)
    requires ApplyLines(st, lines).Ok?
    ensures AllWellFormed(lines)
  {
    if lines != [] {
      ApplyLinesOkOnlyIfWellFormed(st, lines[..|lines| - 1]);
    }
  }

  lemma {:induction false} ApplyLinesWellFormed(lines: seq<Line>)
    requires AllWellFormed(lines)
    ensures ApplyLines(Initial, lines) == Ok(FinalSettings(lines))
  {
    if lines != [] {
      var prefix := lines[..|lines| - 1];
      assert AllWellFormed(prefix);
      ApplyLinesWellFormed(prefix);
      if lines[|lines| - 1].key != "reload" {
        assert LastIndex(lines, "reload") == LastIndex(prefix, "reload");
      }
      if lines[|lines| - 1].key != "clients" {
        assert LastIndex(lines, "clients") == LastIndex(prefix, "clients");
      }
      if lines[|lines| - 1].key != "records" {
        assert LastIndex(lines, "records") == LastIndex(prefix, "records");
      }
    }
  }

  /**
   * The first malformed option decides the outcome: `parse` fails with that
   * line's error (unknown key, missing argument, non-integer reload).
   */
  lemma ParseRejectsMalformed(blocks: seq<seq<Line>>, k: nat)
    requires k < |Flatten(blocks)| && !WellFormed(Flatten(blocks)[k])
    requires forall j :: 0 <= j < k ==> WellFormed(Flatten(blocks)[j])
    ensures ParseSpec(blocks) == Err(LineError(Flatten(blocks)[k]))
  {
    var lines := Flatten(blocks);
    var prefix := lines[..k];
    assert AllWellFormed(prefix);
    ApplyLinesWellFormed(prefix);
    ApplyLinesSnoc(Initial, prefix, lines[k]);
    ApplyLinesErrPersists(Initial, prefix + [lines[k]], lines[k + 1..]);
    assert prefix + [lines[k]] + lines[k + 1..] == lines;
  }

  /**
   * Well-formed options give the settings of `FinalSettings` (reload 5 and
   * empty names unless set; the last setting of each wins), and `parse`
   * fails only when both file names are empty.
   */
  lemma ParseAcceptsWellFormed(blocks: seq<seq<Line>>)
    requires AllWellFormed(Flatten(blocks))
    ensures var s := FinalSettings(Flatten(blocks));
      ParseSpec(blocks) == if s.clientFilename == "" && s.recordFilename == "" then Err(RequiredMissing) else Ok(s)
  {
    ApplyLinesWellFormed(Flatten(blocks));
  }

  /** A successful parse saw only well-formed options, so its settings are `FinalSettings`. */
  lemma ParseOkIsFinal(blocks: seq<seq<Line>>)
    requires ParseSpec(blocks).Ok?
    ensures AllWellFormed(Flatten(blocks))
    ensures ParseSpec(blocks).value == FinalSettings(Flatten(blocks))
    ensures ParseSpec(blocks).value.clientFilename != "" || ParseSpec(blocks).value.recordFilename != ""
  {
    ApplyLinesOkOnlyIfWellFormed(Initial, Flatten(blocks));
    ApplyLinesWellFormed(Flatten(blocks));
  }

  /** Without a reload option a successful parse keeps the default interval of 5. */
  lemma ParseDefaultReload(blocks: seq<seq<Line>>)
    requires ParseSpec(blocks).Ok?
    requires forall j :: 0 <= j < |Flatten(blocks)| ==> Flatten(blocks)[j].key != "reload"
    ensures ParseSpec(blocks).value.reload == DefaultReload
  {
    ParseOkIsFinal(blocks);
    LastIndexIsLast(Flatten(blocks), "reload");
  }

  // ---------------------------------------------------------------------------
  // loadConfig: the tables built from raw rows
  // ---------------------------------------------------------------------------

  /** A client group as read from the configuration. */
  datatype ClientACLFile = ClientACLFile(name: string, cidrPrefixes: seq<string>)

  /** A record group as read from the configuration. */
  datatype RecordFile = RecordFile(name: string, records: seq<RawRecordUnit>)

  /** The fatal error of a load: a prefix that does not parse as CIDR. */
  datatype LoadError = InvalidCIDR(cidr: string)

  /** The prefixes of one group, parsed in order; the first bad one aborts. */
  function ParsePrefixes(cidrs: seq<string>, parseCidr: string -> Option<IPNet>): Result<seq<IPNet>, LoadError> {
    if cidrs == [] then Ok([])
    else match ParsePrefixes(cidrs[..|cidrs| - 1], parseCidr)
      case Err(e) => Err(e)
      case Ok(nets) =>
        match parseCidr(cidrs[|cidrs| - 1])
        case None => Err(InvalidCIDR(cidrs[|cidrs| - 1]))
        case Some(n) => Ok(nets + [n])
  }

  /** The ACL list built from the raw client groups, in order. */
  function BuildACLs(raw: seq<ClientACLFile>, parseCidr: string -> Option<IPNet>): Result<seq<ClientACL>, LoadError> {
    if raw == [] then Ok([])
    else match BuildACLs(raw[..|raw| - 1], parseCidr)
      case Err(e) => Err(e)
      case Ok(acls) =>
        match ParsePrefixes(raw[|raw| - 1].cidrPrefixes, parseCidr)
        case Err(e) => Err(e)
        case Ok(nets) => Ok(acls + [ClientACL(raw[|raw| - 1].name, nets)])
  }

  /** Once a prefix fails, the whole group's prefixes fail with the same error. */
  lemma {:induction false} PrefixErrPersists(cidrs: seq<string>, n: nat, parseCidr: string -> Option<IPNet>)
    requires n <= |cidrs| && ParsePrefixes(cidrs[..n], parseCidr).Err?
    ensures ParsePrefixes(cidrs, parseCidr) == ParsePrefixes(cidrs[..n], parseCidr)
    decreases |cidrs| - n
  {
    if n == |cidrs| {
      assert cidrs[..n] == cidrs;
    } else {
      assert cidrs[..n + 1][..n] == cidrs[..n];
      PrefixErrPersists(cidrs, n + 1, parseCidr);
    }
  }

  /** Once a group fails, the whole ACL list fails with the same error. */
  lemma {:induction false} AclErrPersists(raw: seq<ClientACLFile>, n: nat, parseCidr: string -> Option<IPNet>)
    requires n <= |raw| && BuildACLs(raw[..n], parseCidr).Err?
    ensures BuildACLs(raw, parseCidr) == BuildACLs(raw[..n], parseCidr)
    decreases |raw| - n
  {
    if n == |raw| {
      assert raw[..n] == raw;
    } else {
      assert raw[..n + 1][..n] == raw[..n];
      AclErrPersists(raw, n + 1, parseCidr);
    }
  }

  /** The loader's own type switch: A, AAAA and CNAME; anything else, TXT included, is 0. */
  function LoaderTypeCode(t: string): uint16 {
    if t == "A" then TypeA
    else if t == "AAAA" then TypeAAAA
    else if t == "CNAME" then TypeCNAME
    else 0
  }

  /** The zone entry the loader stores for one row. */
  function LoaderZone(row: RawRecordUnit, normalize: string -> string): Zone {
    Zone(normalize(row.name), row.ttl, LoaderTypeCode(ToUpper(row.rtype)), normalize(row.value))
  }

  /** One group's zone table: every row appended to the names, and stored under its name. */
  function BuildZones(rows: seq<RawRecordUnit>, normalize: string -> string): Zones {
    if rows == [] then EmptyZones
    else
      var zs := BuildZones(rows[..|rows| - 1], normalize);
      var rr := LoaderZone(rows[|rows| - 1], normalize);
      Zones(zs.z[rr.name := rr], zs.names + [rr.name])
  }

  /** The per-group zone tables, keyed by group name. */
  function BuildClientZones(groups: seq<RecordFile>, normalize: string -> string): map<string, Zones> {
    if groups == [] then map[]
    else BuildClientZones(groups[..|groups| - 1], normalize)[groups[|groups| - 1].name := BuildZones(groups[|groups| - 1].records, normalize)]
  }

  /**
   * Prefixes parse all or nothing: the result keeps every prefix, in order,
   * or names the first one that does not parse.
   */
  lemma {:induction false} ParsePrefixesShape(cidrs: seq<string>, parseCidr: string -> Option<IPNet>)
    ensures ParsePrefixes(cidrs, parseCidr).Ok? <==> forall j :: 0 <= j < |cidrs| ==> parseCidr(cidrs[j]).Some?
    ensures ParsePrefixes(cidrs, parseCidr).Ok? ==>
      var nets := ParsePrefixes(cidrs, parseCidr).value;
      |nets| == |cidrs| && forall j :: 0 <= j < |cidrs| ==> nets[j] == parseCidr(cidrs[j]).value
    ensures ParsePrefixes(cidrs, parseCidr).Err? ==>
      exists j :: 0 <= j < |cidrs| && parseCidr(cidrs[j]).None?
        && ParsePrefixes(cidrs, parseCidr).error == InvalidCIDR(cidrs[j])
        && forall k :: 0 <= k < j ==> parseCidr(cidrs[k]).Some?
  {
    if cidrs != [] {
      var prefix := cidrs[..|cidrs| - 1];
      ParsePrefixesShape(prefix, parseCidr);
      if ParsePrefixes(prefix, parseCidr).Err? {
        var j :| 0 <= j < |prefix| && parseCidr(prefix[j]).None?
          && ParsePrefixes(prefix, parseCidr).error == InvalidCIDR(prefix[j])
          && forall k :: 0 <= k < j ==> parseCidr(prefix[k]).Some?;
        assert cidrs[j] == prefix[j];
      }
    }
  }

  /**
   * The ACL list has one group per raw client, in input order, each with its
   * prefixes in input order; it exists exactly when every prefix parses.
   */
  lemma {:induction false} BuildACLsShape(raw: seq<ClientACLFile>, parseCidr: string -> Option<IPNet>)
    ensures BuildACLs(raw, parseCidr).Ok? <==>
      forall i, j :: 0 <= i < |raw| && 0 <= j < |raw[i].cidrPrefixes| ==> parseCidr(raw[i].cidrPrefixes[j]).Some?
    ensures BuildACLs(raw, parseCidr).Ok? ==>
      var acls := BuildACLs(raw, parseCidr).value;
      && |acls| == |raw|
      && forall i :: 0 <= i < |raw| ==>
        && acls[i].name == raw[i].name
        && |acls[i].cidrNets| == |raw[i].cidrPrefixes|
        && forall j :: 0 <= j < |raw[i].cidrPrefixes| ==> acls[i].cidrNets[j] == parseCidr(raw[i].cidrPrefixes[j]).value
    ensures BuildACLs(raw, parseCidr).Err? ==>
      exists i, j :: 0 <= i < |raw| && 0 <= j < |raw[i].cidrPrefixes| && parseCidr(raw[i].cidrPrefixes[j]).None?
        && BuildACLs(raw, parseCidr).error == InvalidCIDR(raw[i].cidrPrefixes[j])
  {
    if raw != [] {
      var prefix := raw[..|raw| - 1];
      var last := raw[|raw| - 1];
      BuildACLsShape(prefix, parseCidr);
      ParsePrefixesShape(last.cidrPrefixes, parseCidr);
      if BuildACLs(prefix, parseCidr).Err? {
        var i, j :| 0 <= i < |prefix| && 0 <= j < |prefix[i].cidrPrefixes| && parseCidr(prefix[i].cidrPrefixes[j]).None?
          && BuildACLs(prefix, parseCidr).error == InvalidCIDR(prefix[i].cidrPrefixes[j]);
        assert raw[i] == prefix[i];
      } else if ParsePrefixes(last.cidrPrefixes, parseCidr).Err? {
        var j :| 0 <= j < |last.cidrPrefixes| && parseCidr(last.cidrPrefixes[j]).None?
          && ParsePrefixes(last.cidrPrefixes, parseCidr).error == InvalidCIDR(last.cidrPrefixes[j])
          && forall k :: 0 <= k < j ==> parseCidr(last.cidrPrefixes[k]).Some?;
        assert raw[|raw| - 1] == last;
      } else {
        assert forall i :: 0 <= i < |prefix| ==> raw[i] == prefix[i];
      }
    }
  }

  /** A group's names are the normalised row names, in row order, duplicates kept. */
  lemma {:induction false} BuildZonesNames(rows: seq<RawRecordUnit>, normalize: string -> string)
    ensures |BuildZones(rows, normalize).names| == |rows|
    ensures forall i :: 0 <= i < |rows| ==> BuildZones(rows, normalize).names[i] == normalize(rows[i].name)
  {
    if rows != [] {
      var prefix := rows[..|rows| - 1];
      BuildZonesNames(prefix, normalize);
      assert forall i :: 0 <= i < |prefix| ==> rows[i] == prefix[i];
    }
  }

  /** A group's map has exactly the names as keys. */
  lemma {:induction false} BuildZonesKeys(rows: seq<RawRecordUnit>, normalize: string -> string)
    ensures forall n :: n in BuildZones(rows, normalize).z <==> n in BuildZones(rows, normalize).names
  {
    if rows != [] {
      BuildZonesKeys(rows[..|rows| - 1], normalize);
    }
  }

  /** Each name holds the entry of the last row carrying it. */
  lemma {:induction false} BuildZonesLastWins(rows: seq<RawRecordUnit>, normalize: string -> string, i: nat)
    requires i < |rows|
    requires forall j :: i < j < |rows| ==> normalize(rows[j].name) != normalize(rows[i].name)
    ensures normalize(rows[i].name) in BuildZones(rows, normalize).z
    ensures BuildZones(rows, normalize).z[normalize(rows[i].name)] == LoaderZone(rows[i], normalize)
  {
    if i < |rows| - 1 {
      var prefix := rows[..|rows| - 1];
      assert prefix[i] == rows[i];
      BuildZonesLastWins(prefix, normalize, i);
    }
  }

  /** The zone tables are keyed by exactly the record-group names. */
  lemma {:induction false} BuildClientZonesKeys(groups: seq<RecordFile>, normalize: string -> string)
    ensures forall n :: n in BuildClientZones(groups, normalize) <==> exists g :: 0 <= g < |groups| && groups[g].name == n
  {
    if groups != [] {
      var prefix := groups[..|groups| - 1];
      var m := BuildClientZones(groups, normalize);
      BuildClientZonesKeys(prefix, normalize);
      forall n ensures n in m <==> exists g :: 0 <= g < |groups| && groups[g].name == n {
        if n != groups[|groups| - 1].name {
          var prev := BuildClientZones(prefix, normalize);
          assert m == prev[groups[|groups| - 1].name := BuildZones(groups[|groups| - 1].records, normalize)];
          assert n in m <==> n in prev;
          if n in prev {
            var g :| 0 <= g < |prefix| && prefix[g].name == n;
            assert groups[g].name == n;
          }
          if exists g :: 0 <= g < |groups| && groups[g].name == n {
            var g :| 0 <= g < |groups| && groups[g].name == n;
            assert prefix[g].name == n;
          }
        }
      }
    }
  }

  /** A name used by several record groups holds the table of the last of them. */
  lemma {:induction false} BuildClientZonesLastWins(groups: seq<RecordFile>, normalize: string -> string, g: nat)
    requires g < |groups|
    requires forall h :: g < h < |groups| ==> groups[h].name != groups[g].name
    ensures groups[g].name in BuildClientZones(groups, normalize)
    ensures BuildClientZones(groups, normalize)[groups[g].name] == BuildZones(groups[g].records, normalize)
  {
    if g < |groups| - 1 {
      var prefix := groups[..|groups| - 1];
      assert prefix[g] == groups[g];
      BuildClientZonesLastWins(prefix, normalize, g);
    }
  }

  /**
   * The loader and `NewZoneRecord` agree on A, AAAA and CNAME rows. A TXT
   * row gets code 16 from `NewZoneRecord` but 0 from the loader, and a row
   * `NewZoneRecord` rejects is still stored by the loader, with code 0.
   */
  lemma LoaderZoneVersusNewZoneRecord(row: RawRecordUnit, normalize: string -> string)
    ensures forall i :: 0 <= i < 3 && EqualFold(row.rtype, Keywords[i]) ==>
      NewZoneRecord(row, normalize) == Ok(LoaderZone(row, normalize))
    ensures EqualFold(row.rtype, "TXT") ==>
      NewZoneRecord(row, normalize).Ok? && NewZoneRecord(row, normalize).value.rrtype == TypeTXT
        && LoaderZone(row, normalize).rrtype == 0
    ensures NewZoneRecord(row, normalize).Err? ==> LoaderZone(row, normalize).rrtype == 0
  {
    forall i | 0 <= i < 4 {
      ToUpperMatchesIff(row.rtype, Keywords[i]);
    }
  }
}
