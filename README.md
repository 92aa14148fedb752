# Fastest-address selection: a Dafny model

This project models the decision procedure at the core of `fastip/ping.go`. That code picks, from the IP addresses of a host, the one that connects fastest. It combines a latency cache with a timed race of TCP probes. The model keeps the sequential logic under the goroutines:

- **Cache scan** (`SchedulePings`). Addresses are walked in input order. An uncached address gets one probe per configured port and sets the `scheduled` flag. A success entry (status 0) competes for the cached candidate; the strict `<` keeps the first one on ties. A failure entry neither probes nor competes.
- **Race arbiter** (`FirstSuccessRes`). It runs over the results that arrived before the deadline, in arrival order. Failures are skipped and the first success is returned. Reaching the end of the arrivals is the timeout.
- **Coordinator** (`PingAll`). Zero addresses give nothing. One address gives a trivial success with port 0 and latency 0. Otherwise, when nothing was scheduled, the cached candidate is returned. When probes were scheduled, the live winner is merged with the candidate, and the live result wins ties (`<=`).
- **Probe worker** (`PingDoTCP`). The dial outcome and the elapsed nanoseconds are inputs. The worker emits exactly one result, with the elapsed time floored to whole milliseconds. It then records the outcome in the cache under the unmapped address, without the port.

Modules:
- `Wrappers` (`wrappers.dfy`): `Option`, which stands for a nil-able pointer.
- `NetAddr` (`netaddr.dfy`): addresses, address-port pairs, the `uint16` port conversion and `Unmap`.
- `Ping` (`ping.dfy`): result and cache-entry types, plus the specification functions `BestCached`, `ProbesOf`, `FirstSuccess` and `Merge`, with the lemmas that characterise them.
- `FastIP` (`fastest_addr.dfy`): the class `FastestAddr`. Its `cache` field is a `map` that the probe worker updates in place, and its methods are proved against the `Ping` functions.
- `Scenarios` (`scenarios.dfy`): concrete runs with two addresses.

The goroutines that `schedulePings` starts are the returned sequence of probes. The buffered result channel is the input sequence `arrivals`.

Three behaviours of `fastip/ping.go` worth noting:
- A failure entry neither schedules a probe nor competes for the candidate (fastip/ping.go:37-46). So an address with a failure entry is not probed while that entry is in the cache; expiry is outside the model.
- The one-address answer carries latency 0 (fastip/ping.go:66-69).
- A worker records its outcome under the unmapped address (fastip/ping.go:149), while the scan looks up each address as given (fastip/ping.go:36). In the model, an IPv4-mapped input address is therefore probed again on the next call even after its outcome was recorded (`Ping.MappedAddressStillProbed`).

## Model

| member | source | states |
|---|---|---|
| NetAddr.ToPort | fastip/ping.go:40 | a configured port becomes a 16-bit port congruent to it modulo 2^16, unchanged when it already fits |
| NetAddr.Unmap | fastip/ping.go:149 | an IPv4-mapped IPv6 address loses its ::ffff prefix and yields the four IPv4 octets; any other address is unchanged |
| NetAddr.UnmapIdempotent | fastip/ping.go:149 | the unmapped cache key is never itself mapped, so unmapping it again changes nothing |
| Ping.Candidate | fastip/ping.go:47-51 | a cached candidate names the address with port 0, is a success, and carries the cached latency |
| Ping.PortProbes | fastip/ping.go:39-41 | one probe per configured port, in port order, each to the address on the truncated port |
| Ping.CountUncached | fastip/ping.go:37-38 | the number of uncached positions is at most the number of addresses, and is positive exactly when some address is uncached |
| Ping.Merge | fastip/ping.go:84-96 | the answer is the live result or the candidate; on timeout it is the candidate (or nothing); with both present its latency is the minimum, and on equal latencies it is the live result |
| Ping.BestCachedNone | fastip/ping.go:46-52 | the scan yields no candidate exactly when no address has a success entry |
| Ping.BestCachedIsFastest | fastip/ping.go:46-52 | a returned candidate is that of an address with minimal cached latency among the success entries, and every earlier success entry is strictly slower (first wins ties) |
| Ping.FastestCachedUnique | fastip/ping.go:46 | the minimal-latency, first-found index is unique, so the candidate is determined |
| Ping.ProbesOfMembers | fastip/ping.go:35-44 | every probe is to an input address without a cache entry, on a configured port; every uncached address is probed on every configured port; an address with a failure entry is not probed while that entry is present |
| Ping.ProbesOfCount | fastip/ping.go:39-41 | the number of probes is the number of uncached positions times the number of ports |
| Ping.ProbesWithinCapacity | fastip/ping.go:72 | the probes never exceed the channel capacity len(ips) * len(pingPorts), so no worker's single send can block |
| Ping.NoProbesWhenAllCached | fastip/ping.go:36-44 | when every address has an entry of either status, nothing is probed and nothing is scheduled |
| Ping.RecordedNotProbed | fastip/ping.go:36-43 | while an outcome of either kind is recorded for an address, a scan does not probe that address |
| Ping.MappedAddressStillProbed | fastip/ping.go:36-41 | an outcome recorded under the unmapped key of an uncached IPv4-mapped input address does not stop the next scan from probing that input address on every configured port |
| Ping.FirstSuccessIsFirst | fastip/ping.go:101-123 | the arbiter answers nothing exactly when no arrival succeeded; otherwise it answers the earliest successful arrival, and all arrivals before it failed |
| Ping.ResultFromInputs | fastip/ping.go:84-96 | when every arrival comes from a launched probe, the answer is a success for an input address, on port 0 (cached) or on a configured port (live) |
| FastIP.FastestAddr.CacheFind | fastip/ping.go:36 | the lookup yields the entry exactly when the address is a key of the cache |
| FastIP.FastestAddr.CacheAddSuccessful | fastip/ping.go:152 | the cache afterwards maps the address to a success with the latency, all other keys unchanged |
| FastIP.FastestAddr.CacheAddFailure | fastip/ping.go:161 | the cache afterwards maps the address to a failure, all other keys unchanged |
| FastIP.FastestAddr.SchedulePings | fastip/ping.go:30-56 | the returned candidate is the scan's best cached candidate; `scheduled` holds exactly when some address is uncached; the probes are the scan's probes in launch order |
| FastIP.FastestAddr.FirstSuccessRes | fastip/ping.go:101-124 | the result is the first successful arrival, or nothing on timeout |
| FastIP.FastestAddr.PingAll | fastip/ping.go:60-97 | zero addresses: nothing and no probes; one address: that address on port 0 as a success with latency 0 and no probes; otherwise the scan's probes, within channel capacity; the cached candidate when nothing was scheduled; else the merge of the arbiter's winner with the candidate |
| FastIP.FastestAddr.PingDoTCP | fastip/ping.go:127-163 | one result on the dialed pair whose success is the dial outcome and whose latency is the elapsed time floored to whole milliseconds; the cache is updated only under the unmapped address, with a success at that latency or a failure; that key is never itself an IPv4-mapped address |
| Scenarios.LiveBeatsCache | fastip/ping.go:90-92 | A cached at 50 ms and B uncached; B's 30 ms live success is probed on its port and wins |
| Scenarios.FailedProbeFallsBackToCache | fastip/ping.go:85-87 | B's only probe fails before the deadline, so A's cached 50 ms candidate is returned |
| Scenarios.CachedTieKeepsFirst | fastip/ping.go:46 | two success entries at equal latency leave nothing scheduled, and the first address is the candidate |
| Scenarios.LiveTieWins | fastip/ping.go:90 | a live result as fast as the cached candidate is preferred |

## Left out

- Goroutines, the buffered channel and the `select` on `time.After`. Arrival order and the deadline are an input sequence of results. The model does not capture interleavings of workers with the scan: the scan reads one snapshot of the cache.
- `PingWaitTimeout` and `pingTCPTimeout`. They only bound real time, which the arrival sequence stands for.
- `f.pinger.Dial`, `conn.Close`, `time.Now` and `time.Since`. These are network and clock calls; the dial outcome and the elapsed nanoseconds are parameters of `PingDoTCP`.
- All `log.Debug` calls, and the `host` argument that is used only by them.
- The internals of `cacheFind`, `cacheAddSuccessful` and `cacheAddFailure`, including expiry and eviction. The cache is a plain map with lookup and insert. A failure is stored as status 1 with latency 0. Lookups use the address as given, because whether `cacheFind` unmaps its key is not visible in `fastip/ping.go`; cache.go is not part of this model.
- IPv6 zones and the rest of `netip`. An address is its octet sequence.
- PingDoTCP: does not model Go's 64-bit `uint` latency or `int64` duration widths. Latencies are unbounded naturals, since a dial is capped at a few seconds, far below any wrap-around.
