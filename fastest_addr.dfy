/**
 * The fastest-address object of fastip/ping.go: it owns the latency cache
 * (a map the probe workers update in place) and the configured ping ports.
 * The concurrency of fastip/ping.go (one goroutine per probe, a buffered
 * result channel, a timed `select`) is replaced by explicit values: the
 * launched goroutines are the returned sequence of probes, and the results
 * read from the channel before the deadline are an input sequence.
 */
module FastIP {
  import opened Wrappers
  import opened NetAddr
  import opened Ping

  class FastestAddr {
    /** The latency cache, keyed on the address without a port. */
    var cache: Cache
    /** The ports every uncached address is probed on. */
    const pingPorts: seq<nat>

    constructor (ports: seq<nat>)
      ensures cache == map[] && pingPorts == ports
    {
      cache := map[];
      pingPorts := ports;
    }

    /** Cache lookup: the entry for `ip`, or none. */
    function CacheFind(ip: Addr): (e: Option<CacheEntry>)
      reads this
      ensures e.Some? <==> ip in cache
      ensures e.Some? ==> e.value == cache[ip]
    {
      if ip in cache then Some(cache[ip]) else None
    }

    /** Records a successful measurement for `ip`. */
    method CacheAddSuccessful(ip: Addr, latency: nat)
      modifies this
      ensures cache == old(cache)[ip := CacheEntry(STATUS_SUCCESS, latency)]
    {
      cache := cache[ip := CacheEntry(STATUS_SUCCESS, latency)];
    }

    /** Records a failed probe for `ip`. */
    method CacheAddFailure(ip: Addr)
      modifies this
      ensures cache == old(cache)[ip := CacheEntry(STATUS_FAILURE, 0)]
    {
      cache := cache[ip := CacheEntry(STATUS_FAILURE, 0)];
    }

    /**
     * The cache scan. Walks `ips` in order: an uncached address gets one
     * probe per configured port and sets `scheduled`; a success entry
     * competes for the candidate `pr`; a failure entry does neither.
     */
    method SchedulePings(ips: seq<Addr>) returns (pr: Option<PingResult>, scheduled: bool, probes: seq<AddrPort>)
      ensures pr == BestCached(cache, ips)
      ensures scheduled <==> AnyUncached(cache, ips)
      ensures probes == ProbesOf(cache, ips, pingPorts)
    {
      pr, scheduled, probes := None, false, [];
      for i := 0 to |ips|
        invariant pr == BestCached(cache, ips[..i])
        invariant scheduled <==> exists k :: 0 <= k < i && ips[k] !in cache
        invariant probes == ProbesOf(cache, ips[..i], pingPorts)
      {
        var ip := ips[i];
        assert ips[..i + 1][..i] == ips[..i];
        var cached := CacheFind(ip);
        if cached.None? {
          scheduled := true;
          ghost var before := probes;
          for j := 0 to |pingPorts|
            invariant probes == before + PortProbes(ip, pingPorts[..j])
          {
            assert PortProbes(ip, pingPorts[..j + 1]) == PortProbes(ip, pingPorts[..j]) + [AddrPort(ip, ToPort(pingPorts[j]))];
            probes := probes + [AddrPort(ip, ToPort(pingPorts[j]))];
          }
          assert pingPorts[..|pingPorts|] == pingPorts;
        } else if cached.value.status == STATUS_SUCCESS && (pr.None? || cached.value.latencyMsec < pr.value.latency) {
          pr := Some(Candidate(ip, cached.value));
        }
      }
      assert ips[..|ips|] == ips;
    }

    /**
     * The race arbiter over the results that arrived before the deadline,
     * in arrival order: failures are skipped, the first success is returned,
     * and running out of arrivals is the timeout.
     */
    method FirstSuccessRes(arrivals: seq<PingResult>) returns (res: Option<PingResult>)
      ensures res == FirstSuccess(arrivals)
    {
      var i := 0;
      while i < |arrivals|
        invariant 0 <= i <= |arrivals|
        invariant FirstSuccess(arrivals[i..]) == FirstSuccess(arrivals)
      {
        var r := arrivals[i];
        assert arrivals[i..][1..] == arrivals[i + 1..];
        if r.success {
          return Some(r);
        }
        i := i + 1;
      }
      return None;
    }

    /**
     * The coordinator. No address gives nothing, one address a trivial
     * success with port 0 and latency 0; otherwise the cache scan runs, its
     * candidate is returned at once when nothing was scheduled, and else the
     * arbiter's winner is merged with it. `probes` are the goroutines started.
     */
    method PingAll(ips: seq<Addr>, arrivals: seq<PingResult>) returns (pr: Option<PingResult>, probes: seq<AddrPort>)
      ensures |ips| == 0 ==> pr == None && probes == []
      ensures |ips| == 1 ==> pr == Some(PingResult(AddrPort(ips[0], 0), 0, true)) && probes == []
      ensures |ips| >= 2 ==> probes == ProbesOf(cache, ips, pingPorts)
      ensures |probes| <= |ips| * |pingPorts|
      ensures |ips| >= 2 && !AnyUncached(cache, ips) ==> pr == BestCached(cache, ips)
      ensures |ips| >= 2 && AnyUncached(cache, ips) ==>
                pr == Merge(FirstSuccess(arrivals), BestCached(cache, ips))
    {
      if |ips| == 0 {
        return None, [];
      } else if |ips| == 1 {
        return Some(PingResult(AddrPort(ips[0], 0), 0, true)), [];
      }
      var scheduled;
      pr, scheduled, probes := SchedulePings(ips);
      ProbesWithinCapacity(cache, ips, pingPorts);
      if !scheduled {
        return;
      }
      var res := FirstSuccessRes(arrivals);
      if res.None? {
        return;
      }
      if pr.None? || res.value.latency <= pr.value.latency {
        pr := res;
      }
    }

    /**
     * One probe worker, given the dial outcome and the elapsed time in
     * nanoseconds: it emits exactly one result on the dialed pair, with the
     * elapsed whole milliseconds, and records the outcome in the cache under
     * the unmapped address alone.
     */
    method PingDoTCP(addrPort: AddrPort, dialOk: bool, elapsedNanos: nat) returns (res: PingResult)
      modifies this
      ensures res.addrPort == addrPort && res.success == dialOk
      ensures res.latency * 1_000_000 <= elapsedNanos < (res.latency + 1) * 1_000_000
      ensures cache == old(cache)[Unmap(addrPort.addr) :=
                if dialOk then CacheEntry(STATUS_SUCCESS, res.latency) else CacheEntry(STATUS_FAILURE, 0)]
      ensures Unmap(Unmap(addrPort.addr)) == Unmap(addrPort.addr) && !Is4In6(Unmap(addrPort.addr))
    {
      var latency := elapsedNanos / 1_000_000;
      res := PingResult(addrPort, latency, dialOk);
      var addr := Unmap(addrPort.addr);
      UnmapIdempotent(addrPort.addr);
      if dialOk {
        CacheAddSuccessful(addr, latency);
      } else {
        CacheAddFailure(addr);
      }
    }
  }
}
