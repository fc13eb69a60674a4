/**
 * The parts of the DNS library and of Go's `net` package that the resolver
 * touches, reduced to what the view engine observes of them.
 */
module Dns {

  newtype uint16 = x: int | 0 <= x < 0x1_0000
  newtype uint32 = x: int | 0 <= x < 0x1_0000_0000

  // RR type codes: section 3.2.2 of RFC 1035 (A, CNAME, TXT), section 2.1 of RFC 3596 (AAAA).
  const TypeA: uint16 := 1
  const TypeCNAME: uint16 := 5
  const TypeTXT: uint16 := 16
  const TypeAAAA: uint16 := 28

  // The Internet class, section 3.2.4 of RFC 1035.
  const ClassINET: uint16 := 1

  // Response codes, section 4.1.1 of RFC 1035.
  const RcodeSuccess: int := 0
  const RcodeServerFailure: int := 2
  const RcodeNameError: int := 3

  /** A resource record: header fields and, as one string, its RDATA (a CNAME's target). */
  datatype RR = RR(name: string, rrtype: uint16, rrclass: uint16, ttl: uint32, rdata: string)

  /** What the upstream resolver hands back: a transport error, no message, or a message. */
  datatype UpstreamReply =
    | TransportError
    | NoMessage
    | Reply(rcode: int, answer: seq<RR>)
}

/**
 * Network prefixes. `Contains` is a masked-prefix comparison: an address is in
 * the prefix when both have the same width and agree on the first `prefixLen` bits.
 * IPv4 addresses, including IPv4-mapped IPv6 ones, have width 32; IPv6 ones 128.
 */
module Net {

  function Pow2(n: nat): (r: nat)
    ensures r >= 1
  {
    if n == 0 then 1 else 2 * Pow2(n - 1)
  }

  datatype IP = IP(addr: nat, width: nat)

  datatype IPNet = IPNet(base: nat, prefixLen: nat, width: nat)

  predicate Contains(n: IPNet, ip: IP) {
    && ip.width == n.width
    && n.prefixLen <= n.width
    && ip.addr / Pow2(n.width - n.prefixLen) == n.base / Pow2(n.width - n.prefixLen)
  }
}
