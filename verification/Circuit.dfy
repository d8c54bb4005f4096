/** The circuit breaker in front of a gateway (internal/payments/circuit.go): two fields under a
    mutex, what history they stand for, and the load they let through. */
module CircuitBreaker {
  import opened Payments

  /** The two mutable fields. openedAt is None when the breaker is closed. */
  datatype State = State(failures: nat, openedAt: Option<int>)

  const CLOSED := State(0, None)

  function AfterFailure(s: State, threshold: int, now: int): State {
    State(s.failures + 1, if s.failures + 1 >= threshold then Some(now) else s.openedAt)
  }

  predicate Expired(s: State, cooldown: int, now: int) { s.openedAt.Some? && now - s.openedAt.value >= cooldown }

  predicate Allowed(s: State, cooldown: int, now: int) { s.openedAt.None? || Expired(s, cooldown, now) }

  function AfterAllow(s: State, cooldown: int, now: int): State { if Expired(s, cooldown, now) then CLOSED else s }

  /******* The history the fields stand for *******/

  /** One locked call, in the order the mutex serves them. */
  datatype Event = AllowAt(t: int) | FailureAt(t: int) | Cleared

  function Next(s: State, threshold: int, cooldown: int, e: Event): State {
    match e
    case AllowAt(t) => AfterAllow(s, cooldown, t)
    case Cleared => CLOSED
    case FailureAt(t) => AfterFailure(s, threshold, t)
  }

  function Run(h: seq<Event>, threshold: int, cooldown: int): State {
    if h == [] then CLOSED else Next(Run(h[..|h| - 1], threshold, cooldown), threshold, cooldown, h[|h| - 1])
  }

  /** The whole list the breaker could have kept instead: the failures since the last success or
      since the last call that found at least threshold of them and the newest a cooldown old. */
  function Recent(h: seq<Event>, threshold: int, cooldown: int): seq<int> {
    if h == [] then []
    else
      var fs := Recent(h[..|h| - 1], threshold, cooldown);
      match h[|h| - 1]
      case Cleared => []
      case FailureAt(t) => fs + [t]
      case AllowAt(t) => if |fs| >= threshold && fs != [] && t - fs[|fs| - 1] >= cooldown then [] else fs
  }

  /** The counter and the timestamp are exactly a digest of that list. */
  lemma {:induction false} FieldsRefineHistory(h: seq<Event>, threshold: int, cooldown: int)
    requires threshold >= 1
    ensures var fs := Recent(h, threshold, cooldown);
            Run(h, threshold, cooldown) == State(|fs|, if |fs| >= threshold then Some(fs[|fs| - 1]) else None)
  {
    if h != [] {
      FieldsRefineHistory(h[..|h| - 1], threshold, cooldown);
    }
  }

  /** threshold failures have piled up, and the newest is younger than the cooldown. */
  predicate Tripped(failures: seq<int>, threshold: int, cooldown: int, now: int)
    requires threshold >= 1
  {
    |failures| >= threshold && now - failures[|failures| - 1] < cooldown
  }

  lemma RunOneMore(h: seq<Event>, e: Event, threshold: int, cooldown: int)
    ensures Run(h + [e], threshold, cooldown) == Next(Run(h, threshold, cooldown), threshold, cooldown, e)
  {
    assert (h + [e])[..|h + [e]| - 1] == h;
  }

  /** Allow refuses exactly when threshold failures have piled up and the newest is younger than the
      cooldown. */
  lemma RefusesIff(h: seq<Event>, threshold: int, cooldown: int, now: int)
    requires threshold >= 1
    ensures !Allowed(Run(h, threshold, cooldown), cooldown, now) <==>
              Tripped(Recent(h, threshold, cooldown), threshold, cooldown, now)
  {
    FieldsRefineHistory(h, threshold, cooldown);
  }

  /** The failures a history reports since its last success, whatever calls came in between. */
  function FailuresSinceSuccess(h: seq<Event>): nat {
    if h == [] then 0
    else match h[|h| - 1]
      case Cleared => 0
      case FailureAt(_) => FailuresSinceSuccess(h[..|h| - 1]) + 1
      case AllowAt(_) => FailuresSinceSuccess(h[..|h| - 1])
  }

  lemma {:induction false} RecentAreFailures(h: seq<Event>, threshold: int, cooldown: int)
    ensures |Recent(h, threshold, cooldown)| <= FailuresSinceSuccess(h)
  {
    if h != [] {
      RecentAreFailures(h[..|h| - 1], threshold, cooldown);
    }
  }

  /** Fewer than threshold failures since the last success never make the breaker refuse. */
  lemma OnlyFailuresTrip(h: seq<Event>, threshold: int, cooldown: int, now: int)
    requires threshold >= 1 && FailuresSinceSuccess(h) < threshold
    ensures Allowed(Run(h, threshold, cooldown), cooldown, now)
  {
    RecentAreFailures(h, threshold, cooldown);
    RefusesIff(h, threshold, cooldown, now);
  }

  /** Calls that all end in a verdict never make a breaker refuse that has not tripped: it lets every
      one of them through, however many they are and however often they come. */
  lemma {:induction false} VerdictsNeverTrip(h: seq<Event>, calls: seq<Event>, threshold: int, cooldown: int, now: int)
    requires threshold >= 1 && FailuresSinceSuccess(h) < threshold
    requires forall i :: 0 <= i < |calls| ==> !calls[i].FailureAt?
    ensures FailuresSinceSuccess(h + calls) <= FailuresSinceSuccess(h)
    ensures Allowed(Run(h + calls, threshold, cooldown), cooldown, now)
  {
    if calls == [] {
      assert h + calls == h;
    } else {
      VerdictsNeverTrip(h, calls[..|calls| - 1], threshold, cooldown, now);
      assert (h + calls)[..|h + calls| - 1] == h + calls[..|calls| - 1];
    }
    OnlyFailuresTrip(h + calls, threshold, cooldown, now);
  }

  /******* The object *******/

  /** Two fields stand for the whole history of locked calls. */
  class Circuit {
    var failures: nat
    var openedAt: Option<int>
    const threshold: int
    const cooldown: int
    ghost var history: seq<Event>

    function Fields(): State
      reads this
    {
      State(failures, openedAt)
    }

    ghost predicate Valid()
      reads this
    {
      Fields() == Run(history, threshold, cooldown)
    }

    constructor (threshold: int, cooldown: int)
      ensures this.threshold == threshold && this.cooldown == cooldown
      ensures Valid() && history == []
    {
      this.threshold, this.cooldown := threshold, cooldown;
      failures, openedAt := 0, None;
      history := [];
    }

    /** Refuses exactly when the failures since the last success or expired reset have reached the
        threshold and the newest of them is younger than the cooldown. */
    method Allow(now: int) returns (ok: bool)
      requires Valid()
      modifies this
      ensures Valid() && history == old(history) + [AllowAt(now)]
      ensures ok == Allowed(old(Fields()), cooldown, now)
      ensures threshold >= 1 ==> (!ok <==> Tripped(Recent(old(history), threshold, cooldown), threshold, cooldown, now))
    {
      hide Run, Recent, Tripped;
      RunOneMore(history, AllowAt(now), threshold, cooldown);
      if threshold >= 1 {
        RefusesIff(history, threshold, cooldown, now);
      }
      history := history + [AllowAt(now)];
      if openedAt.None? {
        return true;
      }
      if now - openedAt.value >= cooldown {
        openedAt := None;
        failures := 0;
        return true;
      }
      return false;
    }

    method Success()
      requires Valid()
      modifies this
      ensures Valid() && history == old(history) + [Cleared]
    {
      hide Run;
      RunOneMore(history, Cleared, threshold, cooldown);
      history := history + [Cleared];
      failures := 0;
      openedAt := None;
    }

    method Failure(now: int)
      requires Valid()
      modifies this
      ensures Valid() && history == old(history) + [FailureAt(now)]
    {
      hide Run;
      RunOneMore(history, FailureAt(now), threshold, cooldown);
      history := history + [FailureAt(now)];
      failures := failures + 1;
      if failures >= threshold {
        openedAt := Some(now);
      }
    }
  }

  /******* The load bound *******/

  /** Calls let through by the Allow events of es. */
  function Granted(s: State, threshold: int, cooldown: int, es: seq<Event>): nat
    decreases |es|
  {
    if es == [] then 0
    else (if es[0].AllowAt? && Allowed(s, cooldown, es[0].t) then 1 else 0)
         + Granted(Next(s, threshold, cooldown, es[0]), threshold, cooldown, es[1..])
  }

  /** A window in which every answer is PENDING: each granted call stays in flight until its one
      Failure, at most c are in flight, and all events lie within [from, from + cooldown). */
  predicate PendingWindow(s: State, threshold: int, cooldown: int, inFlight: int, c: int, from: int, es: seq<Event>)
    decreases |es|
  {
    && 0 <= inFlight <= c
    && (es != [] ==>
          && !es[0].Cleared?
          && from <= es[0].t < from + cooldown
          && (es[0].FailureAt? ==> inFlight > 0)
          && PendingWindow(Next(s, threshold, cooldown, es[0]), threshold, cooldown,
                           inFlight + (if es[0].FailureAt? then -1 else if Allowed(s, cooldown, es[0].t) then 1 else 0),
                           c, from, es[1..]))
  }

  /** What reachable fields look like: closed below the threshold, open at or above it. */
  predicate Consistent(s: State, threshold: int) { s.openedAt.Some? <==> s.failures >= threshold }

  /** How many more calls the window can still let through. */
  function Budget(s: State, threshold: int, inFlight: int, c: int, from: int): int {
    if s.openedAt.None? then c - inFlight + threshold - 1 - s.failures
    else if s.openedAt.value >= from then 0
    else c - inFlight + threshold - 1
  }

  lemma {:induction false} WindowStaysInBudget(s: State, threshold: int, cooldown: int, inFlight: int, c: int,
                                               from: int, es: seq<Event>)
    requires threshold >= 1 && Consistent(s, threshold)
    requires PendingWindow(s, threshold, cooldown, inFlight, c, from, es)
    ensures Granted(s, threshold, cooldown, es) <= Budget(s, threshold, inFlight, c, from)
    decreases |es|
  {
    if es != [] {
      var granted := if Allowed(s, cooldown, es[0].t) then 1 else 0;
      WindowStaysInBudget(Next(s, threshold, cooldown, es[0]), threshold, cooldown,
                          inFlight + (if es[0].FailureAt? then -1 else granted), c, from, es[1..]);
    }
  }

  /** After any history, a window shorter than the cooldown in which every answer is PENDING and at
      most c calls are in flight lets through at most threshold + c - 1 calls. */
  lemma LoadBound(h: seq<Event>, threshold: int, cooldown: int, inFlight: int, c: int, from: int, es: seq<Event>)
    requires threshold >= 1
    requires PendingWindow(Run(h, threshold, cooldown), threshold, cooldown, inFlight, c, from, es)
    ensures Granted(Run(h, threshold, cooldown), threshold, cooldown, es) <= threshold + c - 1
  {
    FieldsRefineHistory(h, threshold, cooldown);
    WindowStaysInBudget(Run(h, threshold, cooldown), threshold, cooldown, inFlight, c, from, es);
  }

  /** A serial prefix of n calls, then c calls at once. */
  function Burst(n: nat, c: nat): seq<Event> {
    if n > 0 then [AllowAt(0), FailureAt(0)] + Burst(n - 1, c)
    else if c > 0 then [AllowAt(0)] + Burst(0, c - 1)
    else []
  }

  /** The bound cannot be improved: for every threshold, cooldown and c some window meets it. */
  lemma LoadBoundIsMet(threshold: int, cooldown: int, c: nat) returns (es: seq<Event>)
    requires threshold >= 1 && cooldown > 0 && c >= 1
    ensures PendingWindow(CLOSED, threshold, cooldown, 0, c, 0, es)
    ensures Granted(CLOSED, threshold, cooldown, es) == threshold + c - 1
  {
    es := Burst(threshold - 1, c);
    LoadBoundIsTight(CLOSED, threshold, cooldown, 0, threshold - 1, c);
  }

  lemma {:induction false} LoadBoundIsTight(s: State, threshold: int, cooldown: int, inFlight: nat, n: nat, burst: nat)
    requires cooldown > 0 && s.openedAt.None? && (n > 0 ==> inFlight == 0) && s.failures + n < threshold
    ensures PendingWindow(s, threshold, cooldown, inFlight, inFlight + burst
            + (if burst == 0 && n > 0 then 1 else 0), 0, Burst(n, burst))
    ensures Granted(s, threshold, cooldown, Burst(n, burst)) == n + burst
    decreases n, burst
  {
    var c := inFlight + burst + (if burst == 0 && n > 0 then 1 else 0);
    var es := Burst(n, burst);
    if n > 0 {
      var rest := Burst(n - 1, burst);
      var s' := AfterFailure(s, threshold, 0);
      LoadBoundIsTight(s', threshold, cooldown, 0, n - 1, burst);
      assert es[0] == AllowAt(0) && es[1..] == [FailureAt(0)] + rest && es[1..][1..] == rest;
      WiderWindow(s', threshold, cooldown, 0, burst + (if burst == 0 && n - 1 > 0 then 1 else 0), c, 0, rest);
    } else if burst > 0 {
      LoadBoundIsTight(s, threshold, cooldown, inFlight + 1, 0, burst - 1);
      assert es[1..] == Burst(0, burst - 1);
    }
  }

  lemma {:induction false} WiderWindow(s: State, threshold: int, cooldown: int, inFlight: int, c: int, c': int,
                                       from: int, es: seq<Event>)
    requires c <= c' && PendingWindow(s, threshold, cooldown, inFlight, c, from, es)
    ensures PendingWindow(s, threshold, cooldown, inFlight, c', from, es)
    decreases |es|
  {
    if es != [] {
      WiderWindow(Next(s, threshold, cooldown, es[0]), threshold, cooldown,
                  inFlight + (if es[0].FailureAt? then -1 else if Allowed(s, cooldown, es[0].t) then 1 else 0), c,
                      c', from, es[1..]);
    }
  }
}
