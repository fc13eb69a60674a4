/**
 * The split-horizon view resolver (simpledns.go, and the `loadConfig` table
 * rebuild of setup.go): classify the client address into the first group
 * with a containing prefix, look the query name up in that group's zone
 * table, answer with a CNAME to the entry's value, and, unless the query
 * asked for the CNAME itself, append what the upstream resolver returns for
 * that value.
 */
module SimpleDns {
  import opened Wrappers
  import opened Dns
  import opened Net
  import opened Types
  import opened Setup

  /** The three errors `lookup` returns; each makes the handler pass the query on. */
  datatype LookupError =
    | NoClientZone(qname: string)
    | NoRecordValue(name: string)
    | NoRecordFound(qname: string)

  /** The reply message: authoritative flag and answer section. */
  datatype Response = Response(authoritative: bool, answer: seq<RR>)

  /** What `ServeDNS` does with a query: reply with a message, or call the next handler. */
  datatype ServeOutcome = Replied(rcode: int, msg: Response) | PassedToNext

  /** The outcome of a configuration load: done, or fatal (the process exits). */
  datatype LoadOutcome = Loaded | Fatal(error: LoadError)

  // ---------------------------------------------------------------------------
  // Specification of one query
  // ---------------------------------------------------------------------------

  /** Some prefix of the group contains the address. */
  predicate InGroup(acl: ClientACL, ip: IP) {
    exists k :: 0 <= k < |acl.cidrNets| && Contains(acl.cidrNets[k], ip)
  }

  /** The index of the group the address is classified into, if any. */
  function Classify(acls: seq<ClientACL>, ip: IP): (g: Option<nat>)
    ensures g.Some? ==> g.value < |acls| && InGroup(acls[g.value], ip)
  {
    if acls == [] then None
    else if InGroup(acls[0], ip) then Some(0)
    else match Classify(acls[1..], ip)
      case None => None
      case Some(g) => Some(g + 1)
  }

  /**
   * The upstream's records as `doLookup` passes them on: nothing on a
   * transport error or a missing message, otherwise the answer section as it
   * is, whatever the response code.
   */
  function PassThrough(m: UpstreamReply): (rrs: seq<RR>)
    ensures m.Reply? ==> rrs == m.answer
    ensures !m.Reply? ==> rrs == []
  {
    match m
    case Reply(_, answer) => answer
    case _ => []
  }

  /** The zone entry of `qname` in the group's table; a group without a table has none. */
  function EntryOf(zones: map<string, Zones>, group: string, qname: string): Option<Zone> {
    var zs := if group in zones then zones[group] else EmptyZones;
    if qname in zs.z then Some(zs.z[qname]) else None
  }

  /** The CNAME record synthesised for an entry (section 3.3.1 of RFC 1035). */
  function CnameFor(qname: string, qclass: uint16, z: Zone): RR {
    RR(qname, TypeCNAME, qclass, z.ttl, z.value)
  }

  /** The answer of one group once the address has been classified into it. */
  function AnswerIn(zones: map<string, Zones>, group: string, qname: string, qtype: uint16, qclass: uint16,
                    respond: (string, uint16) -> UpstreamReply): Result<seq<RR>, LookupError>
  {
    match EntryOf(zones, group, qname)
    case None => Err(NoClientZone(qname))
    case Some(z) =>
      if z.value == "" then Err(NoRecordValue(z.name))
      else if qtype == TypeCNAME then Ok([CnameFor(qname, qclass, z)])
      else Ok([CnameFor(qname, qclass, z)] + PassThrough(respond(z.value, qtype)))
  }

  /** What `lookup` returns, given the upstream's reply to each (target, type). */
  function Resolve(acls: seq<ClientACL>, zones: map<string, Zones>, ip: IP, qname: string, qtype: uint16,
                   qclass: uint16, respond: (string, uint16) -> UpstreamReply): Result<seq<RR>, LookupError>
  {
    match Classify(acls, ip)
    case None => Err(NoRecordFound(qname))
    case Some(g) => AnswerIn(zones, acls[g].name, qname, qtype, qclass, respond)
  }

  /** The name `lookup` asks the upstream resolver about, if it asks at all. */
  function Delegation(acls: seq<ClientACL>, zones: map<string, Zones>, ip: IP, qname: string, qtype: uint16): Option<string> {
    match Classify(acls, ip)
    case None => None
    case Some(g) =>
      match EntryOf(zones, acls[g].name, qname)
      case None => None
      case Some(z) => if z.value == "" || qtype == TypeCNAME then None else Some(z.value)
  }

  /** `ServeDNS`'s decision: answer authoritatively with the records, or pass the query on. */
  function Respond(r: Result<seq<RR>, LookupError>, written: bool): ServeOutcome {
    match r
    case Err(_) => PassedToNext
    case Ok(answers) => if written then Replied(RcodeSuccess, Response(true, answers)) else PassedToNext
  }

  // ---------------------------------------------------------------------------
  // Properties of one query
  // ---------------------------------------------------------------------------

  /**
   * First match wins: the address is classified into group `g` exactly when
   * `g` has a containing prefix and no earlier group has one.
   */
  lemma {:induction false} ClassifyIsFirstMatch(acls: seq<ClientACL>, ip: IP, g: nat)
    ensures Classify(acls, ip) == Some(g) <==>
      g < |acls| && InGroup(acls[g], ip) && forall h :: 0 <= h < g ==> !InGroup(acls[h], ip)
  {
    if acls != [] && !InGroup(acls[0], ip) && g > 0 {
      ClassifyIsFirstMatch(acls[1..], ip, g - 1);
      assert forall h :: 0 < h < |acls| ==> acls[h] == acls[1..][h - 1];
    }
  }

  /** No group is chosen exactly when no prefix of any group contains the address. */
  lemma {:induction false} ClassifyNone(acls: seq<ClientACL>, ip: IP)
    ensures Classify(acls, ip).None? <==> forall h :: 0 <= h < |acls| ==> !InGroup(acls[h], ip)
  {
    if acls != [] && !InGroup(acls[0], ip) {
      ClassifyNone(acls[1..], ip);
      assert forall h :: 0 < h < |acls| ==> acls[h] == acls[1..][h - 1];
    }
  }

  /**
   * An address no prefix contains gets the "no record" error, no upstream
   * call, and the query goes to the next handler.
   */
  lemma NoGroupFallsThrough(acls: seq<ClientACL>, zones: map<string, Zones>, ip: IP, qname: string, qtype: uint16,
                            qclass: uint16, respond: (string, uint16) -> UpstreamReply, written: bool)
    requires forall h :: 0 <= h < |acls| ==> !InGroup(acls[h], ip)
    ensures Resolve(acls, zones, ip, qname, qtype, qclass, respond) == Err(NoRecordFound(qname))
    ensures Delegation(acls, zones, ip, qname, qtype).None?
    ensures Respond(Resolve(acls, zones, ip, qname, qtype, qclass, respond), written) == PassedToNext
  {
    ClassifyNone(acls, ip);
  }

  /**
   * The group used is the first with a containing prefix, and its answer is
   * the result even when that answer is an error: later groups are not tried.
   */
  lemma FirstMatchWins(acls: seq<ClientACL>, zones: map<string, Zones>, ip: IP, qname: string, qtype: uint16,
                       qclass: uint16, respond: (string, uint16) -> UpstreamReply, g: nat)
    requires g < |acls| && InGroup(acls[g], ip)
    requires forall h :: 0 <= h < g ==> !InGroup(acls[h], ip)
    ensures Resolve(acls, zones, ip, qname, qtype, qclass, respond) == AnswerIn(zones, acls[g].name, qname, qtype, qclass, respond)
  {
    ClassifyIsFirstMatch(acls, ip, g);
  }

  /** Groups after a matching one cannot change the outcome or the upstream call. */
  lemma {:induction false} LaterGroupsIgnored(acls: seq<ClientACL>, more: seq<ClientACL>, zones: map<string, Zones>, ip: IP,
                                             qname: string, qtype: uint16, qclass: uint16, respond: (string, uint16) -> UpstreamReply)
    requires Classify(acls, ip).Some?
    ensures Classify(acls + more, ip) == Classify(acls, ip)
    ensures Resolve(acls + more, zones, ip, qname, qtype, qclass, respond) == Resolve(acls, zones, ip, qname, qtype, qclass, respond)
    ensures Delegation(acls + more, zones, ip, qname, qtype) == Delegation(acls, zones, ip, qname, qtype)
  {
    var g := Classify(acls, ip).value;
    ClassifyIsFirstMatch(acls, ip, g);
    ClassifyIsFirstMatch(acls + more, ip, g);
  }

  /**
   * The outcome once group `g` is the first with a containing prefix: a group
   * without an entry for the exact query name (or without a table) gives "no
   * client zone"; an entry with an empty value gives "no record value";
   * otherwise the CNAME, alone for a CNAME query and followed by the
   * upstream's records for any other type.
   */
  lemma ResolveInFirstMatch(acls: seq<ClientACL>, zones: map<string, Zones>, ip: IP, qname: string, qtype: uint16,
                            qclass: uint16, respond: (string, uint16) -> UpstreamReply, g: nat)
    requires g < |acls| && InGroup(acls[g], ip)
    requires forall h :: 0 <= h < g ==> !InGroup(acls[h], ip)
    ensures var r := Resolve(acls, zones, ip, qname, qtype, qclass, respond);
      var zs := if acls[g].name in zones then zones[acls[g].name] else EmptyZones;
      if qname !in zs.z then r == Err(NoClientZone(qname))
      else if zs.z[qname].value == "" then r == Err(NoRecordValue(zs.z[qname].name))
      else if qtype == TypeCNAME then
        r == Ok([RR(qname, TypeCNAME, qclass, zs.z[qname].ttl, zs.z[qname].value)])
      else
        r == Ok([RR(qname, TypeCNAME, qclass, zs.z[qname].ttl, zs.z[qname].value)] + PassThrough(respond(zs.z[qname].value, qtype)))
  {
    ClassifyIsFirstMatch(acls, ip, g);
  }

  /**
   * A successful answer starts with the CNAME from the query name to the
   * entry's value, with the query class and the entry's TTL, and is never empty.
   */
  lemma ResolveOkStartsWithCname(acls: seq<ClientACL>, zones: map<string, Zones>, ip: IP, qname: string, qtype: uint16,
                                 qclass: uint16, respond: (string, uint16) -> UpstreamReply)
    requires Resolve(acls, zones, ip, qname, qtype, qclass, respond).Ok?
    ensures var answers := Resolve(acls, zones, ip, qname, qtype, qclass, respond).value;
      && Classify(acls, ip).Some?
      && var z := EntryOf(zones, acls[Classify(acls, ip).value].name, qname);
      && z.Some? && z.value.value != ""
      && |answers| >= 1
      && answers[0] == RR(qname, TypeCNAME, qclass, z.value.ttl, z.value.value)
  {
  }

  /**
   * The upstream resolver is asked only for non-CNAME queries that reached an
   * entry, about the entry's value, and the answer is then exactly the CNAME
   * followed by the upstream's records; a CNAME query is never delegated.
   */
  lemma DelegationMatchesAnswer(acls: seq<ClientACL>, zones: map<string, Zones>, ip: IP, qname: string, qtype: uint16,
                                qclass: uint16, respond: (string, uint16) -> UpstreamReply)
    ensures qtype == TypeCNAME ==> Delegation(acls, zones, ip, qname, qtype).None?
    ensures Delegation(acls, zones, ip, qname, qtype).Some? ==>
      var target := Delegation(acls, zones, ip, qname, qtype).value;
      var r := Resolve(acls, zones, ip, qname, qtype, qclass, respond);
      r.Ok? && |r.value| >= 1 && r.value[0].rdata == target && r.value[1..] == PassThrough(respond(target, qtype))
    ensures Delegation(acls, zones, ip, qname, qtype).None? && Resolve(acls, zones, ip, qname, qtype, qclass, respond).Ok? ==>
      qtype == TypeCNAME && |Resolve(acls, zones, ip, qname, qtype, qclass, respond).value| == 1
  {
  }

  /**
   * A successful lookup is answered authoritatively with exactly its records
   * (at least one); any error passes the query to the next handler, as does a
   * failed write.
   */
  lemma ServeAnswersExactly(acls: seq<ClientACL>, zones: map<string, Zones>, ip: IP, qname: string, qtype: uint16,
                            qclass: uint16, respond: (string, uint16) -> UpstreamReply, written: bool)
    ensures var r := Resolve(acls, zones, ip, qname, qtype, qclass, respond);
      var o := Respond(r, written);
      && (o.Replied? <==> r.Ok? && written)
      && (o.Replied? ==> o.rcode == RcodeSuccess && o.msg.authoritative && o.msg.answer == r.value && |o.msg.answer| >= 1)
  {
  }

  /**
   * The example of a split-horizon answer: group `internal` owns 100.64.0.0/10,
   * and `db.example.internal.` is an alias of `db-dc1.example.internal.` there.
   * A query from 100.64.0.5 gets the CNAME plus the upstream's records for the
   * alias; a query from 8.8.8.8 matches no group.
   */
  lemma InternalGroupExample(respond: (string, uint16) -> UpstreamReply)
    ensures var acls := [ClientACL("internal", [IPNet(1681915904, 10, 32)])];
      var entry := Zone("db.example.internal.", 60, TypeCNAME, "db-dc1.example.internal.");
      var zones := map["internal" := Zones(map["db.example.internal." := entry], ["db.example.internal."])];
      && Resolve(acls, zones, IP(1681915909, 32), "db.example.internal.", TypeA, ClassINET, respond)
         == Ok([RR("db.example.internal.", TypeCNAME, ClassINET, 60, "db-dc1.example.internal.")]
               + PassThrough(respond("db-dc1.example.internal.", TypeA)))
      && Resolve(acls, zones, IP(134744072, 32), "db.example.internal.", TypeA, ClassINET, respond)
         == Err(NoRecordFound("db.example.internal."))
  {
    var net := IPNet(1681915904, 10, 32);
    assert Pow2(5) == 32;
    assert Pow2(10) == 1024;
    assert Pow2(15) == 32768;
    assert Pow2(20) == 1048576;
    assert Pow2(22) == 4194304;
    var acls := [ClientACL("internal", [net])];
    assert Contains(acls[0].cidrNets[0], IP(1681915909, 32));
    assert Classify(acls, IP(1681915909, 32)) == Some(0);
    assert !Contains(acls[0].cidrNets[0], IP(134744072, 32));
    assert !InGroup(acls[0], IP(134744072, 32));
    assert Classify(acls, IP(134744072, 32)) == None;
  }

  // ---------------------------------------------------------------------------
  // The upstream resolver and the plugin state
  // ---------------------------------------------------------------------------

  /**
   * The upstream resolver: its reply to each (name, type) is given by
   * `respond`; `queries` records every lookup made, in order.
   */
  class Upstream {
    const respond: (string, uint16) -> UpstreamReply
    var queries: seq<(string, uint16)>

    constructor (respond: (string, uint16) -> UpstreamReply)
      ensures this.respond == respond && queries == []
    {
      this.respond := respond;
      queries := [];
    }

    method Lookup(target: string, qtype: uint16) returns (m: UpstreamReply)
      modifies this
      ensures m == respond(target, qtype)
      ensures queries == old(queries) + [(target, qtype)]
    {
      queries := queries + [(target, qtype)];
      m := respond(target, qtype);
    }
  }

  /** The plugin: its settings, the ACL list, the per-group zone tables and the upstream. */
  class SimpleDNS {
    var reload: int
    var clientFilename: string
    var recordFilename: string
    var clientACLs: seq<ClientACL>
    var clientZones: map<string, Zones>
    const upstream: Upstream

    constructor (settings: Settings, upstream: Upstream)
      ensures reload == settings.reload
      ensures clientFilename == settings.clientFilename && recordFilename == settings.recordFilename
      ensures clientACLs == [] && clientZones == map[]
      ensures this.upstream == upstream
    {
      reload := settings.reload;
      clientFilename := settings.clientFilename;
      recordFilename := settings.recordFilename;
      clientACLs := [];
      clientZones := map[];
      this.upstream := upstream;
    }

    /**
     * Rebuilds the ACL list and the zone tables from raw rows. The ACL list
     * is replaced first; a prefix that does not parse is fatal, and then the
     * zone tables are left as they were and the ACL list holds the groups
     * before the failing one. Otherwise the zone tables are rebuilt from empty.
     */
    method LoadConfig(rawClients: seq<ClientACLFile>, rawRecords: seq<RecordFile>,
                      parseCidr: string -> Option<IPNet>, normalize: string -> string) returns (r: LoadOutcome)
      modifies this
      ensures reload == old(reload) && clientFilename == old(clientFilename) && recordFilename == old(recordFilename)
      ensures r == match BuildACLs(rawClients, parseCidr) case Ok(_) => Loaded case Err(e) => Fatal(e)
      ensures r.Loaded? ==> clientACLs == BuildACLs(rawClients, parseCidr).value
      ensures r.Loaded? ==> clientZones == BuildClientZones(rawRecords, normalize)
      ensures r.Fatal? ==> clientZones == old(clientZones)
      ensures r.Fatal? ==>
        exists i :: (0 <= i < |rawClients| && BuildACLs(rawClients[..i], parseCidr) == Ok(clientACLs)
          && ParsePrefixes(rawClients[i].cidrPrefixes, parseCidr) == Err(r.error))
    {
      clientACLs := [];
      var i := 0;
      while i < |rawClients|
        invariant 0 <= i <= |rawClients|
        invariant BuildACLs(rawClients[..i], parseCidr) == Ok(clientACLs)
        invariant reload == old(reload) && clientFilename == old(clientFilename) && recordFilename == old(recordFilename)
        invariant clientZones == old(clientZones)
      {
        var client := rawClients[i];
        var cidrNets: seq<IPNet> := [];
        var j := 0;
        while j < |client.cidrPrefixes|
          invariant 0 <= j <= |client.cidrPrefixes|
          invariant ParsePrefixes(client.cidrPrefixes[..j], parseCidr) == Ok(cidrNets)
        {
          var cidr := client.cidrPrefixes[j];
          var cidrNet := parseCidr(cidr);
          assert client.cidrPrefixes[..j + 1][..j] == client.cidrPrefixes[..j];
          if cidrNet.None? {
            r := Fatal(InvalidCIDR(cidr));
            assert ParsePrefixes(client.cidrPrefixes[..j + 1], parseCidr) == Err(InvalidCIDR(cidr));
            assert rawClients[..i + 1][..i] == rawClients[..i] && rawClients[..i + 1][i] == client;
            PrefixErrPersists(client.cidrPrefixes, j + 1, parseCidr);
            AclErrPersists(rawClients, i + 1, parseCidr);
            assert BuildACLs(rawClients, parseCidr) == Err(InvalidCIDR(cidr));
            return;
          }
          cidrNets := cidrNets + [cidrNet.value];
          j := j + 1;
        }
        assert client.cidrPrefixes[..j] == client.cidrPrefixes;
        assert rawClients[..i + 1][..i] == rawClients[..i];
        clientACLs := clientACLs + [ClientACL(client.name, cidrNets)];
        i := i + 1;
      }
      assert rawClients[..i] == rawClients;

      clientZones := map[];
      var k := 0;
      while k < |rawRecords|
        invariant 0 <= k <= |rawRecords|
        invariant clientZones == BuildClientZones(rawRecords[..k], normalize)
        invariant clientACLs == BuildACLs(rawClients, parseCidr).value
        invariant reload == old(reload) && clientFilename == old(clientFilename) && recordFilename == old(recordFilename)
      {
        var group := rawRecords[k];
        var zones := EmptyZones;
        var m := 0;
        while m < |group.records|
          invariant 0 <= m <= |group.records|
          invariant zones == BuildZones(group.records[..m], normalize)
        {
          var rawRecord := group.records[m];
          var t := ToUpper(rawRecord.rtype);
          var rrtype: uint16 := 0;
          if t == "A" {
            rrtype := TypeA;
          } else if t == "AAAA" {
            rrtype := TypeAAAA;
          } else if t == "CNAME" {
            rrtype := TypeCNAME;
          }
          var rr := Zone(normalize(rawRecord.name), rawRecord.ttl, rrtype, normalize(rawRecord.value));
          zones := zones.(names := zones.names + [rr.name], z := zones.z[rr.name := rr]);
          assert group.records[..m + 1][..m] == group.records[..m];
          m := m + 1;
        }
        assert group.records[..m] == group.records;
        assert rawRecords[..k + 1][..k] == rawRecords[..k];
        clientZones := clientZones[group.name := zones];
        k := k + 1;
      }
      assert rawRecords[..k] == rawRecords;
      r := Loaded;
    }

    /** Asks the upstream about `target` and passes its records on (`doLookup`). */
    method DoLookup(target: string, qtype: uint16) returns (rrs: seq<RR>)
      modifies upstream
      ensures rrs == PassThrough(upstream.respond(target, qtype))
      ensures upstream.queries == old(upstream.queries) + [(target, qtype)]
    {
      var m := upstream.Lookup(target, qtype);
      if m.TransportError? || m.NoMessage? {
        return [];
      }
      if m.rcode == RcodeNameError {
        return m.answer;
      }
      if m.rcode == RcodeServerFailure {
        return m.answer;
      }
      if m.rcode == RcodeSuccess && |m.answer| == 0 {
        return m.answer;
      }
      return m.answer;
    }

    /**
     * Resolves one query: scans the groups in order and each group's prefixes
     * in order, stops at the first prefix that contains the client address and
     * answers from that group's zone table. The upstream is asked at most once,
     * exactly when `Delegation` names a target.
     */
    method Lookup(ip: IP, qname: string, qtype: uint16, qclass: uint16) returns (r: Result<seq<RR>, LookupError>)
      modifies upstream
      ensures r == Resolve(clientACLs, clientZones, ip, qname, qtype, qclass, upstream.respond)
      ensures upstream.queries == old(upstream.queries) +
        match Delegation(clientACLs, clientZones, ip, qname, qtype) case None => [] case Some(t) => [(t, qtype)]
    {
      var answers: seq<RR> := [];
      var i := 0;
      label Loop:
      while i < |clientACLs|
        invariant 0 <= i <= |clientACLs|
        invariant forall h :: 0 <= h < i ==> !InGroup(clientACLs[h], ip)
        invariant answers == [] && upstream.queries == old(upstream.queries)
      {
        var client := clientACLs[i];
        var j := 0;
        while j < |client.cidrNets|
          invariant 0 <= j <= |client.cidrNets|
          invariant forall k :: 0 <= k < j ==> !Contains(client.cidrNets[k], ip)
          invariant answers == [] && upstream.queries == old(upstream.queries)
        {
          if Contains(client.cidrNets[j], ip) {
            assert InGroup(clientACLs[i], ip);
            ClassifyIsFirstMatch(clientACLs, ip, i);
            assert Classify(clientACLs, ip) == Some(i);
            var zones := if client.name in clientZones then clientZones[client.name] else EmptyZones;
            if qname !in zones.z {
              return Err(NoClientZone(qname));
            }
            var z := zones.z[qname];
            if z.value == "" {
              return Err(NoRecordValue(z.name));
            }
            var rr := RR(qname, TypeCNAME, qclass, z.ttl, z.value);
            answers := answers + [rr];
            assert answers == [CnameFor(qname, qclass, z)];
            if qtype != TypeCNAME {
              var rrs := DoLookup(z.value, qtype);
              answers := answers + rrs;
            }
            assert EntryOf(clientZones, clientACLs[i].name, qname) == Some(z);
            assert Ok(answers) == Resolve(clientACLs, clientZones, ip, qname, qtype, qclass, upstream.respond);
            break Loop;
          }
          j := j + 1;
        }
        i := i + 1;
      }
      if |answers| == 0 {
        ClassifyNone(clientACLs, ip);
        return Err(NoRecordFound(qname));
      }
      return Ok(answers);
    }

    /**
     * Handles one query: answers authoritatively with the lookup's records
     * when the lookup succeeds and the reply is written (`written`), and
     * otherwise calls the next handler.
     */
    method ServeDNS(ip: IP, qname: string, qtype: uint16, qclass: uint16, written: bool) returns (o: ServeOutcome)
      modifies upstream
      ensures o == Respond(Resolve(clientACLs, clientZones, ip, qname, qtype, qclass, upstream.respond), written)
      ensures upstream.queries == old(upstream.queries) +
        match Delegation(clientACLs, clientZones, ip, qname, qtype) case None => [] case Some(t) => [(t, qtype)]
    {
      var answers := Lookup(ip, qname, qtype, qclass);
      if answers.Err? {
        return PassedToNext;
      }
      if !written {
        return PassedToNext;
      }
      return Replied(RcodeSuccess, Response(true, answers.value));
    }
  }
}
