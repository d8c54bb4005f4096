/** The latency histogram every service keeps (internal/payments/telemetry.go), between calls.
    Counters are unsigned 64-bit words and wrap. */
module Telemetry {

  const WORD := 0x1_0000_0000_0000_0000

  const BOUNDS: seq<int> := [50, 100, 250, 500, 1000, 5000]

  function Wrap(n: int): nat { n % WORD }

  lemma WrapAdd(a: int, b: int)
    ensures Wrap(Wrap(a) + Wrap(b)) == Wrap(a + b)
    ensures Wrap(Wrap(a) + b) == Wrap(a + b)
  {
  }

  lemma WrapSmall(n: nat)
    requires n < WORD
    ensures Wrap(n) == n
  {
  }

  datatype Observation = Observation(ok: bool, latencyMs: int)

  function AtMost(obs: seq<Observation>, bound: int): nat {
    if obs == [] then 0
    else AtMost(obs[..|obs| - 1], bound) + (if obs[|obs| - 1].latencyMs <= bound then 1 else 0)
  }

  function NotOk(obs: seq<Observation>): nat {
    if obs == [] then 0 else NotOk(obs[..|obs| - 1]) + (if obs[|obs| - 1].ok then 0 else 1)
  }

  function TotalMs(obs: seq<Observation>): int {
    if obs == [] then 0 else TotalMs(obs[..|obs| - 1]) + obs[|obs| - 1].latencyMs
  }

  lemma {:induction false} TalliesAreNested(obs: seq<Observation>, low: int, high: int)
    requires low <= high
    ensures AtMost(obs, low) <= AtMost(obs, high) <= |obs|
    ensures NotOk(obs) <= |obs|
  {
    if obs != [] {
      TalliesAreNested(obs[..|obs| - 1], low, high);
    }
  }

  /** The tallies are the numbers of observations they are named for. */
  lemma {:induction false} AtMostCounts(obs: seq<Observation>, bound: int)
    ensures AtMost(obs, bound) == |set n | 0 <= n < |obs| && obs[n].latencyMs <= bound|
  {
    if obs != [] {
      var before, last := obs[..|obs| - 1], |obs| - 1;
      AtMostCounts(before, bound);
      var fast := set n | 0 <= n < last && before[n].latencyMs <= bound;
      assert (set n | 0 <= n < |obs| && obs[n].latencyMs <= bound)
          == if obs[last].latencyMs <= bound then fast + {last} else fast;
    }
  }

  lemma {:induction false} NotOkCounts(obs: seq<Observation>)
    ensures NotOk(obs) == |set n | 0 <= n < |obs| && !obs[n].ok|
  {
    if obs != [] {
      var before, last := obs[..|obs| - 1], |obs| - 1;
      NotOkCounts(before);
      var bad := set n | 0 <= n < last && !before[n].ok;
      assert (set n | 0 <= n < |obs| && !obs[n].ok) == if obs[last].ok then bad else bad + {last};
    }
  }

  class Metrics {
    var requests: nat
    var failures: nat
    var latencyMs: nat
    const buckets: array<nat>
    ghost var observed: seq<Observation>

    /** Every counter is the tally of what was observed, modulo the word size. */
    ghost predicate Valid()
      reads this, buckets
    {
      && buckets.Length == 6
      && requests == Wrap(|observed|)
      && failures == Wrap(NotOk(observed))
      && latencyMs == Wrap(TotalMs(observed))
      && forall i :: 0 <= i < 6 ==> buckets[i] == Wrap(AtMost(observed, BOUNDS[i]))
    }

    constructor ()
      ensures Valid() && observed == [] && fresh(buckets)
    {
      requests, failures, latencyMs := 0, 0, 0;
      buckets := new nat[6](_ => 0);
      observed := [];
    }

    /** The bucket loop stops at the first bound that holds the latency and counts it there and in
        every later bucket. */
    method CountLatency(ms: int)
      requires buckets.Length == 6
      modifies buckets
      ensures forall k :: 0 <= k < 6 ==>
                buckets[k] == if ms <= [50, 100, 250, 500, 1000, 5000][k] then Wrap(old(buckets[k]) + 1)
                    else old(buckets[k])
    {
      var i := 0;
      while i < 6
        invariant 0 <= i <= 6
        invariant forall k :: 0 <= k < i ==> BOUNDS[k] < ms
        invariant forall k :: 0 <= k < 6 ==> buckets[k] == old(buckets[k])
      {
        if ms <= BOUNDS[i] {
          var j := i;
          while j < buckets.Length
            invariant i <= j <= 6
            invariant forall k :: 0 <= k < i || j <= k < 6 ==> buckets[k] == old(buckets[k])
            invariant forall k :: i <= k < j ==> buckets[k] == Wrap(old(buckets[k]) + 1)
          {
            buckets[j] := Wrap(buckets[j] + 1);
            j := j + 1;
          }
          break;
        }
        i := i + 1;
      }
    }

    method Count(ok: bool, ms: int)
      requires Valid()
      modifies this, buckets
      ensures Valid() && observed == old(observed) + [Observation(ok, ms)]
    {
      hide Wrap;
      CountLatency(ms);
      requests := Wrap(requests + 1);
      if !ok {
        failures := Wrap(failures + 1);
      }
      latencyMs := Wrap(latencyMs + Wrap(ms));
      observed := observed + [Observation(ok, ms)];
      assert observed[..|observed| - 1] == old(observed);
      WrapAdd(|old(observed)|, 1);
      WrapAdd(NotOk(old(observed)), 1);
      WrapAdd(TotalMs(old(observed)), ms);
      forall i | 0 <= i < 6
        ensures Wrap(Wrap(AtMost(old(observed), BOUNDS[i])) + 1) == Wrap(AtMost(old(observed), BOUNDS[i]) + 1) {
        WrapAdd(AtMost(old(observed), BOUNDS[i]), 1);
      }
    }

    /** Every counter is a 64-bit word: its tally modulo 2 to the power 64. */
    lemma CountersAreWords(i: int)
      requires Valid() && 0 <= i < 6
      ensures requests == |observed| % 0x1_0000_0000_0000_0000 && failures == NotOk(observed) % 0x1_0000_0000_0000_0000
      ensures latencyMs == TotalMs(observed) % 0x1_0000_0000_0000_0000
      ensures buckets[i] == AtMost(observed, [50, 100, 250, 500, 1000, 5000][i]) % 0x1_0000_0000_0000_0000
    {
      assert 0x1_0000_0000_0000_0000 == WORD;
    }

    /** Until a counter wraps, the histogram is cumulative and bounded by the request count, and
        failures never exceed requests. */
    lemma HistogramIsCumulative(i: int, j: int)
      requires Valid() && |observed| < 0x1_0000_0000_0000_0000 && 0 <= i <= j < 6
      ensures var bound := [50, 100, 250, 500, 1000, 5000][i];
              buckets[i] == |set n | 0 <= n < |observed| && observed[n].latencyMs <= bound|
      ensures buckets[i] <= buckets[j] <= requests == |observed|
      ensures failures == |set n | 0 <= n < |observed| && !observed[n].ok| <= requests
    {
      AtMostCounts(observed, BOUNDS[i]);
      NotOkCounts(observed);
      hide Wrap;
      TalliesAreNested(observed, BOUNDS[i], BOUNDS[j]);
      WrapSmall(AtMost(observed, BOUNDS[i]));
      WrapSmall(AtMost(observed, BOUNDS[j]));
      WrapSmall(NotOk(observed));
      WrapSmall(|observed|);
    }
  }
}
