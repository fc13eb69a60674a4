/**
 * The table datatypes of the resolver and the conversion of one raw zone row
 * into a zone entry (types.go).
 */
module Types {
  import opened Wrappers
  import opened Dns
  import opened Net

  /** A named client group and its prefixes, in configuration order. */
  datatype ClientACL = ClientACL(name: string, cidrNets: seq<IPNet>)

  /** One zone entry: the alias `value` that `name` resolves to for a group. */
  datatype Zone = Zone(name: string, ttl: uint32, rrtype: uint16, value: string)

  /** A group's zone table: entries by name, and the names in row order. */
  datatype Zones = Zones(z: map<string, Zone>, names: seq<string>)

  /** A zone row as read from the configuration, before conversion. */
  datatype RawRecordUnit = RawRecordUnit(name: string, ttl: uint32, rtype: string, value: string)

  /** The one way `NewZoneRecord` fails: the row's name and its upper-cased type. */
  datatype ZoneError = UnknownType(record: string, upper: string)

  const EmptyZones := Zones(map[], [])

  /** The four type strings `NewZoneRecord` accepts and the codes they map to. */
  const Keywords: seq<string> := ["A", "AAAA", "CNAME", "TXT"]
  const Codes: seq<uint16> := [TypeA, TypeAAAA, TypeCNAME, TypeTXT]

  predicate IsLower(c: char) { 'a' <= c <= 'z' }
  predicate IsUpper(c: char) { 'A' <= c <= 'Z' }

  /** `strings.ToUpper` on one character (ASCII letters only). */
  function UpperChar(c: char): char {
    if IsLower(c) then (c as int - 32) as char else c
  }

  function ToUpper(s: string): string {
    seq(|s|, i requires 0 <= i < |s| => UpperChar(s[i]))
  }

  /** Two characters that are the same letter, ignoring ASCII case. */
  predicate SameIgnoringCase(c: char, d: char) {
    || c == d
    || (IsLower(c) && c as int == d as int + 32)
    || (IsUpper(c) && d as int == c as int + 32)
  }

  /** `s` spells `t` with any casing of its letters. */
  predicate EqualFold(s: string, t: string) {
    |s| == |t| && forall i :: 0 <= i < |s| ==> SameIgnoringCase(s[i], t[i])
  }

  /** The `switch` on the upper-cased type string. */
  function RecordTypeCode(t: string): Option<uint16> {
    if t == "A" then Some(TypeA)
    else if t == "AAAA" then Some(TypeAAAA)
    else if t == "CNAME" then Some(TypeCNAME)
    else if t == "TXT" then Some(TypeTXT)
    else None
  }

  /**
   * Turns a raw row into a zone entry. The type string is matched without
   * regard to case; any other type, the empty string included, is an error.
   * Name and value go through the host-name normaliser, the TTL is copied.
   */
  function NewZoneRecord(record: RawRecordUnit, normalize: string -> string): (r: Result<Zone, ZoneError>)
    ensures r.Ok? ==> r.value.rrtype in {TypeA, TypeAAAA, TypeCNAME, TypeTXT}
    ensures r.Ok? ==> r.value.name == normalize(record.name) && r.value.value == normalize(record.value)
    ensures r.Ok? ==> r.value.ttl == record.ttl
    ensures r.Err? ==> r.error == UnknownType(record.name, ToUpper(record.rtype))
  {
    var t := ToUpper(record.rtype);
    match RecordTypeCode(t)
    case None => Err(UnknownType(record.name, t))
    case Some(code) => Ok(Zone(normalize(record.name), record.ttl, code, normalize(record.value)))
  }

  /** A word made of upper-case ASCII letters only, as the four keywords are. */
  predicate AllUpper(k: string) {
    forall i :: 0 <= i < |k| ==> IsUpper(k[i])
  }

  /** Upper-casing `s` gives the upper-case word `k` exactly when `s` spells `k` in some casing. */
  lemma ToUpperMatchesIff(s: string, k: string)
    requires AllUpper(k)
    ensures ToUpper(s) == k <==> EqualFold(s, k)
  {
    if ToUpper(s) == k {
      forall i | 0 <= i < |s| ensures SameIgnoringCase(s[i], k[i]) {
        assert UpperChar(s[i]) == k[i];
      }
    }
    if EqualFold(s, k) {
      forall i | 0 <= i < |s| ensures ToUpper(s)[i] == k[i] {
        assert SameIgnoringCase(s[i], k[i]);
        assert IsUpper(k[i]);
      }
    }
  }

  /**
   * The four accepted type strings, in any casing, and only they, give an
   * entry; and the entry's code is the one that belongs to the keyword.
   */
  lemma NewZoneRecordCaseInsensitive(record: RawRecordUnit, normalize: string -> string, i: nat)
    requires i < |Keywords|
    ensures var r := NewZoneRecord(record, normalize);
      (r.Ok? && r.value.rrtype == Codes[i]) <==> EqualFold(record.rtype, Keywords[i])
  {
    ToUpperMatchesIff(record.rtype, Keywords[i]);
  }

  /** A type string that is none of the four keywords in any casing is rejected. */
  lemma NewZoneRecordRejectsOthers(record: RawRecordUnit, normalize: string -> string)
    ensures NewZoneRecord(record, normalize).Err? <==>
      forall i :: 0 <= i < |Keywords| ==> !EqualFold(record.rtype, Keywords[i])
  {
    forall i | 0 <= i < |Keywords| {
      NewZoneRecordCaseInsensitive(record, normalize, i);
    }
    var r := NewZoneRecord(record, normalize);
    if r.Ok? {
      assert r.value.rrtype in Codes;
    }
  }
}
