/**
 * Concrete runs of the decision procedure: two addresses, one cached as a
 * 50 ms success and one uncached, probed on port 53.
 */
module Scenarios {
  import opened Wrappers
  import opened NetAddr
  import opened Ping

  const A: Addr := Addr([1, 1, 1, 1])
  const B: Addr := Addr([8, 8, 8, 8])

  /** The scan of [A, B] written out, one address at a time. */
  lemma ScanOfAB(cache: Cache)
    ensures BestCached(cache, [A, B]) == ScanStep(cache, ScanStep(cache, None, A), B)
    ensures ProbesOf(cache, [A, B], [53]) ==
              (if A in cache then [] else [AddrPort(A, 53)]) + (if B in cache then [] else [AddrPort(B, 53)])
    ensures A != B
  {
    assert A.octets[0] != B.octets[0];
    assert [A, B][..1] == [A];
    assert [A][..0] == [];
    assert BestCached(cache, [A]) == ScanStep(cache, BestCached(cache, []), A);
    assert BestCached(cache, [A, B]) == ScanStep(cache, BestCached(cache, [A]), B);
    assert ToPort(53) == 53;
    assert PortProbes(A, [53]) == [AddrPort(A, 53)];
    assert PortProbes(B, [53]) == [AddrPort(B, 53)];
    assert ProbesOf(cache, [A], [53]) == ProbesOf(cache, [], [53]) + (if A in cache then [] else PortProbes(A, [53]));
    assert ProbesOf(cache, [A, B], [53]) == ProbesOf(cache, [A], [53]) + (if B in cache then [] else PortProbes(B, [53]));
  }

  /** B's live probe succeeds in 30 ms: the live result beats A's cached 50 ms. */
  lemma LiveBeatsCache()
    ensures var cache := map[A := CacheEntry(STATUS_SUCCESS, 50)];
            var live := PingResult(AddrPort(B, 53), 30, true);
            && ProbesOf(cache, [A, B], [53]) == [AddrPort(B, 53)]
            && AnyUncached(cache, [A, B])
            && Merge(FirstSuccess([live]), BestCached(cache, [A, B])) == Some(live)
  {
    var cache := map[A := CacheEntry(STATUS_SUCCESS, 50)];
    ScanOfAB(cache);
    assert [A, B][1] !in cache;
  }

  /** B's only probe fails and the deadline passes: A's cached 50 ms is returned. */
  lemma FailedProbeFallsBackToCache()
    ensures var cache := map[A := CacheEntry(STATUS_SUCCESS, 50)];
            var failed := PingResult(AddrPort(B, 53), 4000, false);
            Merge(FirstSuccess([failed]), BestCached(cache, [A, B])) ==
              Some(PingResult(AddrPort(A, 0), 50, true))
  {
    ScanOfAB(map[A := CacheEntry(STATUS_SUCCESS, 50)]);
  }

  /** Equal cached latencies: the address found first is kept. */
  lemma CachedTieKeepsFirst()
    ensures var cache := map[A := CacheEntry(STATUS_SUCCESS, 20), B := CacheEntry(STATUS_SUCCESS, 20)];
            && !AnyUncached(cache, [A, B])
            && BestCached(cache, [A, B]) == Some(PingResult(AddrPort(A, 0), 20, true))
  {
    ScanOfAB(map[A := CacheEntry(STATUS_SUCCESS, 20), B := CacheEntry(STATUS_SUCCESS, 20)]);
  }

  /** A live result as fast as the cached candidate wins the tie. */
  lemma LiveTieWins()
    ensures var cache := map[A := CacheEntry(STATUS_SUCCESS, 50)];
            var live := PingResult(AddrPort(B, 53), 50, true);
            Merge(FirstSuccess([live]), BestCached(cache, [A, B])) == Some(live)
  {
    ScanOfAB(map[A := CacheEntry(STATUS_SUCCESS, 50)]);
  }
}
