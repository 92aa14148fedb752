/**
 * Network addresses as the fastest-address core sees them: an IP address
 * (four octets for IPv4, sixteen for IPv6) and an address-port pair.
 * IPv6 zones and every other detail of Go's `netip` package are outside
 * this model.
 */
module NetAddr {

  /** A 16-bit port number, as carried by an address-port pair. */
  type Port = p: nat | p < 0x1_0000

  datatype Addr = Addr(octets: seq<bv8>)

  datatype AddrPort = AddrPort(addr: Addr, port: Port)

  /** Go's `uint16(port)` conversion of a configured port: the value modulo 2^16. */
  function ToPort(p: nat): (r: Port)
    ensures p < 0x1_0000 ==> r == p
    ensures (p - r) % 0x1_0000 == 0
  {
    p % 0x1_0000
  }

  /** The twelve-octet prefix ::ffff of an IPv4-mapped IPv6 address. */
  const MAPPED_PREFIX: seq<bv8> := [0, 0, 0, 0, 0, 0, 0, 0, 0, 0, 0xff, 0xff]

  predicate Is4In6(a: Addr) {
    |a.octets| == 16 && a.octets[..12] == MAPPED_PREFIX
  }

  /** `Addr.Unmap`: an IPv4-mapped IPv6 address becomes the plain IPv4 address. */
  function Unmap(a: Addr): (u: Addr)
    ensures Is4In6(a) ==> |u.octets| == 4 && MAPPED_PREFIX + u.octets == a.octets
    ensures !Is4In6(a) ==> u == a
  {
    if Is4In6(a) then Addr(a.octets[12..]) else a
  }

  /** Unmapping twice is unmapping once: a cache key is never unmapped further. */
  lemma UnmapIdempotent(a: Addr)
    ensures Unmap(Unmap(a)) == Unmap(a)
    ensures !Is4In6(Unmap(a))
  {
  }
}
