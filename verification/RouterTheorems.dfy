/** What the router machine's invariant means for callers: fencing, mutual exclusion, agreeing
    answers, the retry rate, and the request every provider attempt carries. */
module RouterTheorems {
  import opened Payments
  import opened Adapters
  import opened PaymentsTable
  import opened RouterMachine
  import opened RouterProofs

  /** Every answer given stays as it was given. */
  predicate AnswersKept(s: Router, s': Router) {
    forall a :: a in s.answers ==> a in s'.answers && s'.answers[a] == s.answers[a]
  }

  lemma StepForgetsNothing(cfg: Config, s: Router, step: Step)
    requires AnswerOnce(s) && Enabled(cfg, s, step)
    ensures var s' := Apply(cfg, s, step);
            && AnswersKept(s, s') && s.called <= s'.called
            && (!step.Reserve? && !step.Persist? ==> s'.table == s.table)
  {
    hide Decide, Reserved, FencedWrite, Affected, ValidRouterRequest, Canon, CallProvider;
  }

  lemma AnswersAreOnce(cfg: Config, s: Router)
    requires Inv(cfg, s)
    ensures AnswerOnce(s)
  {
  }

  /** Any step of any attempt: the invariant, the table only evolves, no answer or call is forgotten. */
  lemma StepKeepsInv(cfg: Config, s: Router, step: Step)
    requires Inv(cfg, s) && Enabled(cfg, s, step)
    ensures var s' := Apply(cfg, s, step);
            && Inv(cfg, s') && Evolves(s'.table, s.table)
            && AnswersKept(s, s') && s.called <= s'.called
  {
    AnswersAreOnce(cfg, s);
    hide Inv, Enabled, Apply;
    StepForgetsNothing(cfg, s, step);
    match step
    case Arrive(a, key, req) => ArriveKeepsInv(cfg, s, a, key, req);
    case Acquire(a) => AcquireKeepsInv(cfg, s, a);
    case Reserve(a, now, routerNow, id, outcome) => ReserveKeepsInv(cfg, s, a, now, routerNow, id, outcome);
    case RefuseCall(a) => RefuseCallKeepsInv(cfg, s, a);
    case SendCall(a) => SendCallKeepsInv(cfg, s, a);
    case Return(a, answer) => ReturnKeepsInv(cfg, s, a, answer);
    case Persist(a, now, outcome) => PersistKeepsInv(cfg, s, a, now, outcome);
    case Disconnect(a) => DisconnectKeepsInv(cfg, s, a);
    case Vanish(a) => VanishKeepsInv(cfg, s, a);
  }

  /** What is known of attempt a is what was known before. */
  predicate SameAttempt(s: Router, s': Router, a: nat) {
    && (a in s'.attempts <==> a in s.attempts) && (a in s.attempts ==> s'.attempts[a] == s.attempts[a])
    && (a in s'.dropped <==> a in s.dropped)
    && (a in s'.answers <==> a in s.answers) && (a in s.answers ==> s'.answers[a] == s.answers[a])
  }

  lemma ReserveLeavesOthers(cfg: Config, s: Router, a: nat, step: Step)
    requires step.Reserve? && Enabled(cfg, s, step) && step.a != a
    ensures SameAttempt(s, Apply(cfg, s, step), a)
  {
    hide Decide, Reserved, View, Released;
  }

  /** Nobody else's step touches the attempt. */
  lemma OthersLeaveAttempt(cfg: Config, s: Router, a: nat, step: Step)
    requires Enabled(cfg, s, step) && step.a != a
    ensures SameAttempt(s, Apply(cfg, s, step), a)
  {
    hide Decide, Reserved, FencedWrite, Affected, ValidRouterRequest, Canon, CallProvider, ApplyReserve;
    if step.Reserve? {
      hide Apply, Enabled, SameAttempt;
      ReserveLeavesOthers(cfg, s, a, step);
    }
  }

  /** Where a result comes from: it was there before, it is PENDING, or this step is the one that
      heard it or wrote it down. */
  predicate ResultsTraced(s: Router, s': Router, step: Step) {
    && (forall b :: b in s'.attempts && s'.attempts[b].phase.Returned? ==>
          || (b in s.attempts && s'.attempts[b] == s.attempts[b])
          || s'.attempts[b].phase.result.status.Pending?
          || (step.Return? && step.a == b))
    && (forall k :: k in s'.table ==>
          || (k in s.table && s'.table[k] == s.table[k])
          || s'.table[k].status.Pending?
          || (step.Persist? && step.a in s.attempts && s.attempts[step.a].phase.Returned? && s.attempts[step.a].key == k
              && s.attempts[step.a].phase.ticket.gateway == s'.table[k].gateway
              && s.attempts[step.a].phase.result == RowResult(s'.table[k])))
  }

  /** All a reservation does to the table and to the attempts. */
  lemma ReserveShape(cfg: Config, s: Router, a: nat, now: int, routerNow: int, id: string, outcome: Outcome)
    requires Enabled(cfg, s, Reserve(a, now, routerNow, id, outcome))
    ensures var s' := Apply(cfg, s, Reserve(a, now, routerNow, id, outcome));
            var d := Decided(cfg, s, a, routerNow);
            && a in s.attempts && (d.Claim? ==> s.attempts[a].key in s.table)
            && s'.table == (if outcome.NotDone? then s.table
               else Reserved(s.table, s.attempts[a].key, s.attempts[a].req, d, id, now))
            && forall b :: b in s'.attempts ==>
                 && b in s.attempts
                 && (|| s'.attempts[b] == s.attempts[b]
                     || (b == a && s'.attempts[b].phase.Charging? && (d.Claim? || d.Fresh?) && !outcome.NotDone?
                         && s'.attempts[b].key == s.attempts[b].key && s'.attempts[b].req == s.attempts[b].req))
  {
    hide Accepts, NewRow;
  }

  lemma ReservedRows(t: Table, key: string, req: RouterPaymentRequest, d: Decision, id: string, now: int, delay: nat,
                     routerNow: int)
    requires d == Decide(t, key, req, delay, routerNow)
    ensures forall k :: k in Reserved(t, key, req, d, id, now) ==>
              (k in t && Reserved(t, key, req, d, id, now)[k] == t[k])
                  || (k == key && Reserved(t, key, req, d, id, now)[k].status.Pending?)
    ensures t.Keys <= Reserved(t, key, req, d, id, now).Keys
  {
    hide Accepts, Canon, Columns, RequestHash, GatewayFor;
  }

  lemma ReserveTraced(cfg: Config, s: Router, a: nat, now: int, routerNow: int, id: string, outcome: Outcome)
    requires Enabled(cfg, s, Reserve(a, now, routerNow, id, outcome))
    ensures ResultsTraced(s, Apply(cfg, s, Reserve(a, now, routerNow, id, outcome)),
            Reserve(a, now, routerNow, id, outcome))
  {
    ReserveShape(cfg, s, a, now, routerNow, id, outcome);
    ReservedRows(s.table, s.attempts[a].key, s.attempts[a].req, Decided(cfg, s, a, routerNow), id, now, cfg.delay,
        routerNow);
    hide Apply, Enabled, Decide, Reserved;
  }

  lemma PersistTraced(cfg: Config, s: Router, a: nat, now: int, outcome: Outcome)
    requires Inv(cfg, s) && Enabled(cfg, s, Persist(a, now, outcome))
    ensures ResultsTraced(s, Apply(cfg, s, Persist(a, now, outcome)), Persist(a, now, outcome))
  {
    var mine := s.attempts[a];
    FencedWriteIsOneRow(s.table, mine.key, mine.phase.ticket.lease, mine.phase.result, now);
  }

  lemma StepTraced(cfg: Config, s: Router, step: Step)
    requires Inv(cfg, s) && Enabled(cfg, s, step)
    ensures ResultsTraced(s, Apply(cfg, s, step), step)
  {
    match step
    case Reserve(a, now, routerNow, id, outcome) => ReserveTraced(cfg, s, a, now, routerNow, id, outcome);
    case Persist(a, now, outcome) => PersistTraced(cfg, s, a, now, outcome);
    case _ =>
  }

  /** Fencing. The write changes the table exactly when the attempt's lease is still the row's and
      the row is pending; then the row takes the result and the answer reports it. Otherwise nothing
      changes and the answer is PENDING, whatever the provider said. */
  lemma OnlyTheLeaseWrites(cfg: Config, s: Router, a: nat, now: int)
    requires Inv(cfg, s) && Enabled(cfg, s, Persist(a, now, Reported))
    ensures var Attempt(key, _, Returned(t, r)) := s.attempts[a];
            var s' := Apply(cfg, s, Persist(a, now, Reported));
            if s.table[key].status.Pending? && s.table[key].updatedAt == t.lease
            then s'.table == s.table[key := Finished(s.table[key], r, now)]
                && s'.answers == s.answers[a := View(key, s'.table[key])]
            else s'.table == s.table && s'.answers == s.answers[a := Answered(key, t, Unrecorded(r))]
  {
    var Attempt(key, _, Returned(t, r)) := s.attempts[a];
    FencedWriteIsOneRow(s.table, key, t.lease, r, now);
  }

  /** While another attempt holds a later lease on the row, the earlier attempt has lost its lock and
      its write matches nothing. Guarantees.SupersededForEver says that this is for good. */
  lemma SupersededIsFencedOut(cfg: Config, s: Router, a: nat, b: nat)
    requires Inv(cfg, s) && a in s.attempts && b in s.attempts && s.attempts[a].key == s.attempts[b].key
    requires HasTicket(s.attempts[a].phase) && HasTicket(s.attempts[b].phase)
    requires s.attempts[a].phase.ticket.lease < s.attempts[b].phase.ticket.lease
    ensures var t := s.attempts[a].phase.ticket; Affected(s.table, t.id, t.lease) == {} && !Holds(cfg, s, a)
  {
    FencedWriteIsOneRow(s.table, s.attempts[a].key, s.attempts[a].phase.ticket.lease,
        ProviderResult(Pending, "", ""), 0);
  }

  /** What the faults do. An attempt that loses its connection goes on without its lock; one that
      vanishes is gone, and its lock with it; either way the lock is free for the next attempt, and
      nothing durable changes. */
  lemma FaultsFreeTheLock(cfg: Config, s: Router, a: nat, step: Step)
    requires Enabled(cfg, s, step) && (step == Disconnect(a) || step == Vanish(a))
    ensures var s' := Apply(cfg, s, step);
            && s'.table == s.table && s'.answers == s.answers && s'.clock == s.clock && s'.called == s.called
            && s'.attempts == (if step.Vanish? then s.attempts - {a} else s.attempts)
            && (Holds(cfg, s, a) ==> LockId(cfg, s, a) !in s'.locks)
            && forall l :: l in s.locks && s.locks[l] != a ==> l in s'.locks && s'.locks[l] == s.locks[l]
  {
    hide ValidRouterRequest, Canon, Decide;
  }

  /** Mutual exclusion with a colliding lock hash: among attempts that kept their connection at most
      one per key is between reservation and result write, and its write matches exactly its row. */
  lemma OneAttemptAtATime(cfg: Config, s: Router, a: nat, b: nat)
    requires Inv(cfg, s) && a in s.attempts && b in s.attempts && s.attempts[a].key == s.attempts[b].key
    requires HasTicket(s.attempts[a].phase) && HasTicket(s.attempts[b].phase)
    requires a !in s.dropped && b !in s.dropped
    ensures a == b
    ensures var t := s.attempts[a].phase.ticket; Affected(s.table, t.id, t.lease) == {s.attempts[a].key}
  {
    assert Holds(cfg, s, a) && Holds(cfg, s, b);
    FencedWriteIsOneRow(s.table, s.attempts[a].key, s.attempts[a].phase.ticket.lease,
        ProviderResult(Pending, "", ""), 0);
  }

  /** Whatever step another attempt takes, the row of an attempt that still has its lock stays as it
      is. */
  lemma HoldersRowIsUntouched(cfg: Config, s: Router, a: nat, step: Step)
    requires Inv(cfg, s) && Holds(cfg, s, a) && HasTicket(s.attempts[a].phase)
    requires Enabled(cfg, s, step) && step.a != a
    ensures var key := s.attempts[a].key;
            var s' := Apply(cfg, s, step);
            key in s.table && key in s'.table && s'.table[key] == s.table[key]
  {
    if step.Persist? {
      PersistMissesHolder(cfg, s, a, step.a, step.now, step.outcome);
    } else if step.Reserve? {
      assert s.attempts[step.a].key != s.attempts[a].key && s.attempts[a].key in s.table;
      hide Inv, Holds, Apply, Enabled, Decide, Reserved;
      ReserveShape(cfg, s, step.a, step.now, step.routerNow, step.id, step.outcome);
      ReservedRows(s.table, s.attempts[step.a].key, s.attempts[step.a].req, Decided(cfg, s, step.a, step.routerNow),
                   step.id, step.now, cfg.delay, step.routerNow);
    } else {
      assert AnswerOnce(s) && s.attempts[a].key in s.table;
      hide Inv, Holds, Apply, Enabled;
      StepForgetsNothing(cfg, s, step);
    }
  }

  lemma PersistMissesHolder(cfg: Config, s: Router, a: nat, b: nat, now: int, outcome: Outcome)
    requires Inv(cfg, s) && Holds(cfg, s, a) && HasTicket(s.attempts[a].phase)
    requires Enabled(cfg, s, Persist(b, now, outcome)) && b != a
    ensures var key := s.attempts[a].key;
            var s' := Apply(cfg, s, Persist(b, now, outcome));
            key in s.table && key in s'.table && s'.table[key] == s.table[key]
  {
    PersistFacts(cfg, s, a);
    PersistFacts(cfg, s, b);
    assert UniqueIds(s.table);
    assert Fenced(s.table[s.attempts[a].key], s.attempts[a].phase.ticket.id, s.attempts[a].phase.ticket.lease);
    var mine := s.attempts[b];
    var s' := Apply(cfg, s, Persist(b, now, outcome));
    assert s'.table == if outcome.NotDone? then s.table
           else FencedWrite(s.table, mine.phase.ticket.id, mine.phase.ticket.lease, mine.phase.result, now);
    hide Inv, UniqueIds, Holds, Affected, Apply, Enabled, ApplyPersist, FencedWrite;
    FencedWriteIsOneRow(s.table, mine.key, mine.phase.ticket.lease, mine.phase.result, now);
  }

  /** Any two terminal answers for one key, from any replica at any time, are the same answer, and
      it is the row. */
  lemma TerminalAnswersAgree(cfg: Config, s: Router, a: nat, b: nat)
    requires Inv(cfg, s) && a in s.answers && b in s.answers && s.answers[a].key == s.answers[b].key
    requires Terminal(s.answers[a].status) && Terminal(s.answers[b].status)
    ensures var x := s.answers[a]; x == s.answers[b] && x.key in s.table && x == View(x.key, s.table[x.key])
  {
  }

  /******* Retry rate *******/

  lemma SubsetCount(a: set<nat>, b: set<nat>)
    requires a <= b
    ensures |a| <= |b|
  {
    assert b == a + (b - a);
  }

  /** Steps that neither claim nor call keep the pace. */
  lemma PacedFrame(cfg: Config, s: Router, s': Router)
    requires Paced(cfg, s) && s'.claims == s.claims && s'.calls == s.calls
    requires forall key :: ChargingOn(s', key) <= ChargingOn(s, key)
    requires s'.table.Keys == s.table.Keys && Evolves(s'.table, s.table)
    ensures Paced(cfg, s')
  {
    forall key | key in s'.table ensures PacedKey(cfg, s', key) {
      assert PacedKey(cfg, s, key);
      SubsetCount(ChargingOn(s', key), ChargingOn(s, key));
    }
    forall key | key !in s'.table ensures Count(s'.calls, key) == 0 && ChargingOn(s', key) == {} {
      assert ChargingOn(s', key) <= ChargingOn(s, key);
    }
  }

  lemma ChargingAfterPhase(s: Router, a: nat, p: Phase, key: string)
    requires a in s.attempts
    ensures ChargingOn(WithPhase(s, a, p), key) ==
            if key != s.attempts[a].key then ChargingOn(s, key)
            else if p.Charging? then ChargingOn(s, key) + {a} else ChargingOn(s, key) - {a}
  {
  }

  lemma ChargingAfterEnd(cfg: Config, s: Router, a: nat, key: string)
    requires a in s.attempts
    ensures ChargingOn(Ended(cfg, s, a), key) <= ChargingOn(s, key)
  {
  }

  lemma SendCallKeepsPace(cfg: Config, s: Router, a: nat)
    requires Paced(cfg, s) && a in s.attempts && s.attempts[a].phase.Charging? && s.attempts[a].key in s.table
    ensures Paced(cfg, Apply(cfg, s, SendCall(a)))
  {
    var s' := Apply(cfg, s, SendCall(a));
    var mine := s.attempts[a].key;
    var p := Calling(s.attempts[a].phase.ticket);
    assert a in ChargingOn(s, mine);
    forall key ensures ChargingOn(s', key) == if key == mine then ChargingOn(s, key) - {a} else ChargingOn(s, key) {
      ChargingAfterPhase(s, a, p, key);
      assert ChargingOn(s', key) == ChargingOn(WithPhase(s, a, p), key);
    }
    forall key | key in s'.table ensures PacedKey(cfg, s', key) {
      assert PacedKey(cfg, s, key);
    }
  }

  lemma OneMoreGap(n: nat, gap: int)
    ensures (n + 1) * gap == n * gap + gap
  {
  }

  /** A claim moves the lease on by the delay, less what the replica's clock was ahead. */
  lemma WrittenKeepsPace(cfg: Config, s: Router, a: nat, now: int, routerNow: int, id: string)
    requires GoodTable(s.table, s.clock) && Paced(cfg, s) && a in s.attempts
    requires s.clock < now && routerNow <= now + cfg.skew
    requires Decided(cfg, s, a, routerNow).Claim? || Decided(cfg, s, a, routerNow).Fresh?
    ensures Paced(cfg, Written(cfg, s, a, now, routerNow, id))
    ensures var key := s.attempts[a].key;
            var s' := Written(cfg, s, a, now, routerNow, id);
            key in s'.table && Count(s'.calls, key) + |ChargingOn(s', key)| <= s'.claims[key]
  {
    var s' := Written(cfg, s, a, now, routerNow, id);
    var mine := s.attempts[a].key;
    forall key ensures ChargingOn(s', key) == ChargingOn(s, key) {}
    if mine in s.table {
      assert PacedKey(cfg, s, mine);
      OneMoreGap(s.claims[mine], cfg.delay - cfg.skew);
    }
    forall key | key in s'.table ensures PacedKey(cfg, s', key) {
      if key != mine {
        assert PacedKey(cfg, s, key);
      }
    }
  }

  lemma GrantKeepsPace(cfg: Config, s: Router, a: nat, t: Ticket)
    requires Paced(cfg, s) && a in s.attempts && s.attempts[a].key in s.table
    requires Count(s.calls, s.attempts[a].key) + |ChargingOn(s, s.attempts[a].key)| <= s.claims[s.attempts[a].key]
    ensures Paced(cfg, WithPhase(s, a, Charging(t)))
  {
    var s' := WithPhase(s, a, Charging(t));
    forall key
      ensures ChargingOn(s', key) == if key == s.attempts[a].key then ChargingOn(s, key) + {a} else ChargingOn(s, key) {
      ChargingAfterPhase(s, a, Charging(t), key);
    }
    forall key | key in s'.table ensures PacedKey(cfg, s', key) {
      assert PacedKey(cfg, s, key);
    }
  }

  lemma EndedKeepsPace(cfg: Config, s: Router, a: nat)
    requires Paced(cfg, s) && a in s.attempts
    ensures Paced(cfg, Ended(cfg, s, a))
  {
    forall key ensures ChargingOn(Ended(cfg, s, a), key) <= ChargingOn(s, key) { ChargingAfterEnd(cfg, s, a, key); }
    PacedFrame(cfg, s, Ended(cfg, s, a));
  }

  lemma ReserveKeepsPace(cfg: Config, s: Router, a: nat, now: int, routerNow: int, id: string, outcome: Outcome)
    requires GoodTable(s.table, s.clock) && Paced(cfg, s) && Enabled(cfg, s, Reserve(a, now, routerNow, id, outcome))
    ensures Paced(cfg, Apply(cfg, s, Reserve(a, now, routerNow, id, outcome)))
  {
    var key := s.attempts[a].key;
    var d := Decided(cfg, s, a, routerNow);
    if d.Conflict? || outcome.NotDone? || d.Replayed? {
      var s' := Apply(cfg, s, Reserve(a, now, routerNow, id, outcome));
      forall key ensures ChargingOn(s', key) <= ChargingOn(s, key) {}
      PacedFrame(cfg, s, s');
    } else {
      WrittenKeepsPace(cfg, s, a, now, routerNow, id);
      var written := Written(cfg, s, a, now, routerNow, id);
      if outcome.Reported? {
        GrantKeepsPace(cfg, written, a, TicketOf(written.table[key]));
      } else {
        EndedKeepsPace(cfg, written, a);
      }
    }
  }

  lemma OtherStepsAddNoCharging(cfg: Config, s: Router, step: Step)
    requires Enabled(cfg, s, step) && !step.SendCall? && !step.Reserve?
    ensures var s' := Apply(cfg, s, step);
            && s'.claims == s.claims && s'.calls == s.calls && s'.table.Keys == s.table.Keys
            && forall key :: ChargingOn(s', key) <= ChargingOn(s, key)
  {
    hide Affected, ValidRouterRequest, Canon, CallProvider;
  }

  /** Every step keeps the pace. */
  lemma StepKeepsPace(cfg: Config, s: Router, step: Step)
    requires Inv(cfg, s) && Paced(cfg, s) && Enabled(cfg, s, step)
    ensures Paced(cfg, Apply(cfg, s, step))
  {
    if step.SendCall? {
      assert TicketFits(s.table, s.attempts[step.a].key, s.attempts[step.a].phase.ticket);
      SendCallKeepsPace(cfg, s, step.a);
    } else if step.Reserve? {
      ReserveKeepsPace(cfg, s, step.a, step.now, step.routerNow, step.id, step.outcome);
    } else {
      hide Inv, Paced, Enabled, Apply;
      StepKeepsInv(cfg, s, step);
      OtherStepsAddNoCharging(cfg, s, step);
      PacedFrame(cfg, s, Apply(cfg, s, step));
    }
  }

  /** The router's own provider attempts for a key are paid for by elapsed time: with clocks in step
      and a positive delay they number at most 1 + elapsed / delay. */
  lemma CallsAreRateLimited(cfg: Config, s: Router, key: string)
    requires Inv(cfg, s) && Paced(cfg, s) && key in s.table && cfg.skew < cfg.delay
    ensures (Count(s.calls, key) - 1) * (cfg.delay - cfg.skew) <= s.table[key].updatedAt - s.table[key].createdAt
    ensures Count(s.calls, key) <= 1 + (s.clock - s.table[key].createdAt) / (cfg.delay - cfg.skew)
  {
    assert PacedKey(cfg, s, key);
    var gap, n, spent := cfg.delay - cfg.skew, Count(s.calls, key), s.clock - s.table[key].createdAt;
    assert (n - 1) * gap <= s.claims[key] * gap by { MulMonotone(n - 1, s.claims[key], gap); }
    DivBound(n - 1, gap, spent);
  }

  lemma MulMonotone(a: int, b: int, c: int)
    requires a <= b && 0 <= c
    ensures a * c <= b * c
  {
  }

  lemma DivBound(n: int, gap: int, spent: int)
    requires gap > 0 && n * gap <= spent
    ensures n <= spent / gap
  {
    if n > spent / gap {
      MulMonotone(spent / gap + 1, n, gap);
    }
  }
}
