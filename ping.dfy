/**
 * The sequential decision procedure under the fastest-address race
 * (fastip/ping.go): ping results, cache entries, and the specification
 * functions that say what the cache scan, the race arbiter and the final
 * merge compute, with the lemmas that give those functions their meaning.
 */
module Ping {
  import opened Wrappers
  import opened NetAddr

  /** The result of dialing one address-port pair. */
  datatype PingResult = PingResult(addrPort: AddrPort, latency: nat, success: bool)

  /**
   * A latency-cache entry, keyed on the address alone. Status 0 is a
   * successful measurement; any other status is a recorded failure.
   */
  datatype CacheEntry = CacheEntry(status: int, latencyMsec: nat)

  const STATUS_SUCCESS: int := 0
  const STATUS_FAILURE: int := 1

  type Cache = map<Addr, CacheEntry>

  // ---------------------------------------------------------------------
  // The cache scan
  // ---------------------------------------------------------------------

  /** The address has an entry and that entry records a success. */
  predicate HasSuccessEntry(cache: Cache, ip: Addr) {
    ip in cache && cache[ip].status == STATUS_SUCCESS
  }

  /** The candidate built from a cached success: port 0, success set. */
  function Candidate(ip: Addr, e: CacheEntry): (r: PingResult)
    ensures r.addrPort.addr == ip && r.addrPort.port == 0
    ensures r.success && r.latency == e.latencyMsec
  {
    PingResult(AddrPort(ip, 0), e.latencyMsec, true)
  }

  /** One step of the scan over the held candidate `pr` (strict `<`: first wins). */
  function ScanStep(cache: Cache, pr: Option<PingResult>, ip: Addr): Option<PingResult> {
    if HasSuccessEntry(cache, ip) && (pr.None? || cache[ip].latencyMsec < pr.value.latency)
    then Some(Candidate(ip, cache[ip]))
    else pr
  }

  /** The candidate held after scanning `ips` in order. */
  function BestCached(cache: Cache, ips: seq<Addr>): Option<PingResult>
    decreases |ips|
  {
    if ips == [] then None
    else ScanStep(cache, BestCached(cache, ips[..|ips| - 1]), ips[|ips| - 1])
  }

  /**
   * Independent description of the cached winner: index `k` holds a success
   * entry whose latency is minimal over all success entries, and every
   * earlier success entry is strictly slower.
   */
  ghost predicate IsFastestCached(cache: Cache, ips: seq<Addr>, k: int) {
    && 0 <= k < |ips|
    && HasSuccessEntry(cache, ips[k])
    && (forall j :: 0 <= j < |ips| && HasSuccessEntry(cache, ips[j]) ==>
          cache[ips[k]].latencyMsec <= cache[ips[j]].latencyMsec)
    && (forall j :: 0 <= j < k && HasSuccessEntry(cache, ips[j]) ==>
          cache[ips[k]].latencyMsec < cache[ips[j]].latencyMsec)
  }

  /** Probes launched for one uncached address: one per configured port, in order. */
  function PortProbes(ip: Addr, ports: seq<nat>): (r: seq<AddrPort>)
    ensures |r| == |ports|
    ensures forall j :: 0 <= j < |ports| ==> r[j] == AddrPort(ip, ToPort(ports[j]))
  {
    seq(|ports|, j requires 0 <= j < |ports| => AddrPort(ip, ToPort(ports[j])))
  }

  /** All probes launched by the scan of `ips`, in launch order. */
  function ProbesOf(cache: Cache, ips: seq<Addr>, ports: seq<nat>): seq<AddrPort>
    decreases |ips|
  {
    if ips == [] then []
    else
      ProbesOf(cache, ips[..|ips| - 1], ports)
      + (if ips[|ips| - 1] in cache then [] else PortProbes(ips[|ips| - 1], ports))
  }

  /** Some address of `ips` has no cache entry (the scan's `scheduled` flag). */
  predicate AnyUncached(cache: Cache, ips: seq<Addr>) {
    exists i :: 0 <= i < |ips| && ips[i] !in cache
  }

  /** How many positions of `ips` have no cache entry. */
  function CountUncached(cache: Cache, ips: seq<Addr>): (n: nat)
    ensures n <= |ips|
    ensures n > 0 <==> AnyUncached(cache, ips)
    decreases |ips|
  {
    if ips == [] then 0
    else
      var rest := CountUncached(cache, ips[..|ips| - 1]);
      assert forall i :: 0 <= i < |ips| - 1 ==> ips[..|ips| - 1][i] == ips[i];
      rest + (if ips[|ips| - 1] in cache then 0 else 1)
  }

  // ---------------------------------------------------------------------
  // The race arbiter and the merge
  // ---------------------------------------------------------------------

  /** The first successful result among those that arrived before the deadline. */
  function FirstSuccess(arrivals: seq<PingResult>): Option<PingResult>
    decreases |arrivals|
  {
    if arrivals == [] then None
    else if arrivals[0].success then Some(arrivals[0])
    else FirstSuccess(arrivals[1..])
  }

  /**
   * The coordinator's final choice between the live winner and the cached
   * candidate: the lower latency, the live result on a tie, the other one
   * when either is missing.
   */
  function Merge(live: Option<PingResult>, cached: Option<PingResult>): (r: Option<PingResult>)
    ensures r == live || r == cached
    ensures live.None? ==> r == cached
    ensures cached.None? ==> r == live
    ensures live.Some? && cached.Some? ==>
              r.Some? && r.value.latency <= live.value.latency && r.value.latency <= cached.value.latency
    ensures live.Some? && cached.Some? && live.value.latency == cached.value.latency ==> r == live
  {
    if live.None? then cached
    else if cached.None? || live.value.latency <= cached.value.latency then live
    else cached
  }

  // ---------------------------------------------------------------------
  // Lemmas
  // ---------------------------------------------------------------------

  /** Extending the scan by a strictly faster success entry makes it the winner. */
  lemma FastestAtNewLast(cache: Cache, ips: seq<Addr>)
    requires |ips| > 0 && HasSuccessEntry(cache, ips[|ips| - 1])
    requires forall j :: 0 <= j < |ips| - 1 && HasSuccessEntry(cache, ips[j]) ==>
               cache[ips[|ips| - 1]].latencyMsec < cache[ips[j]].latencyMsec
    ensures IsFastestCached(cache, ips, |ips| - 1)
  {
  }

  /** Extending the scan by an address that is not strictly faster keeps the winner. */
  lemma FastestKept(cache: Cache, ips: seq<Addr>, k: int)
    requires |ips| > 0 && IsFastestCached(cache, ips[..|ips| - 1], k)
    requires HasSuccessEntry(cache, ips[|ips| - 1]) ==>
               cache[ips[k]].latencyMsec <= cache[ips[|ips| - 1]].latencyMsec
    ensures IsFastestCached(cache, ips, k)
  {
    var pre := ips[..|ips| - 1];
    assert forall j :: 0 <= j < |pre| ==> pre[j] == ips[j];
  }

  /** The scan returns no candidate exactly when no address has a success entry. */
  lemma {:induction false} BestCachedNone(cache: Cache, ips: seq<Addr>)
    ensures BestCached(cache, ips).None? <==>
              forall j :: 0 <= j < |ips| ==> !HasSuccessEntry(cache, ips[j])
    decreases |ips|
  {
    if ips != [] {
      var pre := ips[..|ips| - 1];
      assert forall j :: 0 <= j < |pre| ==> pre[j] == ips[j];
      BestCachedNone(cache, pre);
    }
  }

  /**
   * A candidate returned by the scan is that of the first address with the
   * minimal cached latency among the success entries.
   */
  lemma {:induction false} BestCachedIsFastest(cache: Cache, ips: seq<Addr>)
    ensures BestCached(cache, ips).Some? ==>
              exists k :: IsFastestCached(cache, ips, k) &&
                BestCached(cache, ips) == Some(Candidate(ips[k], cache[ips[k]]))
    decreases |ips|
  {
    if ips != [] {
      var n := |ips| - 1;
      var pre := ips[..n];
      assert forall j :: 0 <= j < n ==> pre[j] == ips[j];
      BestCachedNone(cache, pre);
      BestCachedIsFastest(cache, pre);
      var b := BestCached(cache, pre);
      var last := ips[n];
      if b.None? {
        if HasSuccessEntry(cache, last) {
          FastestAtNewLast(cache, ips);
        }
      } else {
        var k :| IsFastestCached(cache, pre, k) && b == Some(Candidate(pre[k], cache[pre[k]]));
        if HasSuccessEntry(cache, last) && cache[last].latencyMsec < b.value.latency {
          FastestAtNewLast(cache, ips);
        } else {
          FastestKept(cache, ips, k);
        }
      }
    }
  }

  /** The fastest cached index is unique, so the candidate is determined. */
  lemma FastestCachedUnique(cache: Cache, ips: seq<Addr>, k1: int, k2: int)
    requires IsFastestCached(cache, ips, k1) && IsFastestCached(cache, ips, k2)
    ensures k1 == k2
  {
  }

  /**
   * Exactly the uncached addresses are probed: every probe is to an address
   * of the input that has no cache entry, on a configured port, and every
   * such address is probed on every configured port.
   */
  lemma {:induction false} ProbesOfMembers(cache: Cache, ips: seq<Addr>, ports: seq<nat>)
    ensures forall p :: p in ProbesOf(cache, ips, ports) ==>
              p.addr in ips && p.addr !in cache &&
              exists j :: 0 <= j < |ports| && p.port == ToPort(ports[j])
    ensures forall i, j :: 0 <= i < |ips| && 0 <= j < |ports| && ips[i] !in cache ==>
              AddrPort(ips[i], ToPort(ports[j])) in ProbesOf(cache, ips, ports)
    decreases |ips|
  {
    if ips != [] {
      var n := |ips| - 1;
      var pre := ips[..n];
      assert forall i :: 0 <= i < n ==> pre[i] == ips[i];
      assert ips == pre + [ips[n]];
      ProbesOfMembers(cache, pre, ports);
    }
  }

  /** The scan launches one probe per configured port for each uncached position. */
  lemma {:induction false} ProbesOfCount(cache: Cache, ips: seq<Addr>, ports: seq<nat>)
    ensures |ProbesOf(cache, ips, ports)| == CountUncached(cache, ips) * |ports|
    decreases |ips|
  {
    if ips != [] {
      var pre := ips[..|ips| - 1];
      ProbesOfCount(cache, pre, ports);
      var c := CountUncached(cache, pre);
      assert (c + 1) * |ports| == c * |ports| + |ports|;
    }
  }

  /**
   * The probes never outnumber the result channel's capacity
   * `len(ips) * len(pingPorts)`, so no worker's send can block.
   */
  lemma {:induction false} ProbesWithinCapacity(cache: Cache, ips: seq<Addr>, ports: seq<nat>)
    ensures |ProbesOf(cache, ips, ports)| <= |ips| * |ports|
  {
    ProbesOfCount(cache, ips, ports);
    ScaleMonotone(CountUncached(cache, ips), |ips|, |ports|);
  }

  lemma ScaleMonotone(c: nat, n: nat, m: nat)
    requires c <= n
    ensures c * m <= n * m
  {
    var d: nat := n - c;
    var dm: nat := d * m;
    assert n * m == c * m + dm;
  }

  /** When every address has a cache entry, of either status, nothing is probed. */
  lemma {:induction false} NoProbesWhenAllCached(cache: Cache, ips: seq<Addr>, ports: seq<nat>)
    requires forall i :: 0 <= i < |ips| ==> ips[i] in cache
    ensures ProbesOf(cache, ips, ports) == []
    ensures !AnyUncached(cache, ips)
    decreases |ips|
  {
    if ips != [] {
      var pre := ips[..|ips| - 1];
      assert forall i :: 0 <= i < |pre| ==> pre[i] == ips[i];
      NoProbesWhenAllCached(cache, pre, ports);
    }
  }

  /**
   * While an outcome of either kind is recorded for `a`, a scan does not
   * probe `a` (expiry of entries is outside this model).
   */
  lemma RecordedNotProbed(cache: Cache, ips: seq<Addr>, ports: seq<nat>, a: Addr, e: CacheEntry)
    ensures forall p :: p in ProbesOf(cache[a := e], ips, ports) ==> p.addr != a
  {
    ProbesOfMembers(cache[a := e], ips, ports);
  }

  /**
   * A worker records under the unmapped key, while the scan looks up each
   * address as given: an uncached IPv4-mapped input address is still probed
   * on every configured port after its outcome was recorded.
   */
  lemma {:induction false} MappedAddressStillProbed(cache: Cache, ips: seq<Addr>, ports: seq<nat>, i: int, e: CacheEntry)
    requires 0 <= i < |ips| && Is4In6(ips[i]) && ips[i] !in cache
    ensures forall j :: 0 <= j < |ports| ==>
              AddrPort(ips[i], ToPort(ports[j])) in ProbesOf(cache[Unmap(ips[i]) := e], ips, ports)
  {
    assert |Unmap(ips[i]).octets| != |ips[i].octets|;
    ProbesOfMembers(cache[Unmap(ips[i]) := e], ips, ports);
  }

  /**
   * The arbiter returns the first success: `k` is its position, everything
   * before it failed; and it returns nothing exactly when nothing succeeded.
   */
  lemma {:induction false} FirstSuccessIsFirst(arrivals: seq<PingResult>)
    ensures FirstSuccess(arrivals).None? <==> forall i :: 0 <= i < |arrivals| ==> !arrivals[i].success
    ensures FirstSuccess(arrivals).Some? ==>
              exists k :: 0 <= k < |arrivals| && arrivals[k].success &&
                FirstSuccess(arrivals) == Some(arrivals[k]) &&
                forall i :: 0 <= i < k ==> !arrivals[i].success
    decreases |arrivals|
  {
    if arrivals != [] && !arrivals[0].success {
      var rest := arrivals[1..];
      FirstSuccessIsFirst(rest);
      if FirstSuccess(rest).Some? {
        var k :| 0 <= k < |rest| && rest[k].success && FirstSuccess(rest) == Some(rest[k]) &&
                 forall i :: 0 <= i < k ==> !rest[i].success;
        assert forall i :: 0 <= i < k + 1 ==> !arrivals[i].success by {
          forall i | 0 <= i < k + 1 ensures !arrivals[i].success {
            if i > 0 { assert arrivals[i] == rest[i - 1]; }
          }
        }
        assert arrivals[k + 1] == rest[k];
      } else {
        forall i | 0 <= i < |arrivals| ensures !arrivals[i].success {
          if i > 0 { assert arrivals[i] == rest[i - 1]; }
        }
      }
    }
  }

  /**
   * When every arrival is the result of a launched probe, the merged answer
   * is a success for an address of the input: either a live result on a
   * configured port or a cached candidate with port 0.
   */
  lemma {:induction false} ResultFromInputs(cache: Cache, ips: seq<Addr>, ports: seq<nat>, arrivals: seq<PingResult>)
    requires forall i :: 0 <= i < |arrivals| ==> arrivals[i].addrPort in ProbesOf(cache, ips, ports)
    ensures var r := Merge(FirstSuccess(arrivals), BestCached(cache, ips));
            r.Some? ==>
              && r.value.success
              && r.value.addrPort.addr in ips
              && (|| r.value.addrPort.port == 0
                  || exists j :: 0 <= j < |ports| && r.value.addrPort.port == ToPort(ports[j]))
  {
    FirstSuccessIsFirst(arrivals);
    BestCachedNone(cache, ips);
    BestCachedIsFastest(cache, ips);
    ProbesOfMembers(cache, ips, ports);
  }
}
