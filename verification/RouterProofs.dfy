/** What every step of the router machine keeps. */
module RouterProofs {
  import opened Payments
  import opened Adapters
  import opened PaymentsTable
  import opened RouterMachine

  lemma ArriveKeepsInv(cfg: Config, s: Router, a: nat, key: string, req: RouterPaymentRequest)
    requires Inv(cfg, s) && Enabled(cfg, s, Arrive(a, key, req))
    ensures Inv(cfg, Apply(cfg, s, Arrive(a, key, req)))
  {
    hide AnswersFit, CallsRouted, GoodTable, TicketFits, Fenced, ValidRouterRequest, Canon, CallProvider, Decide;
  }

  lemma AcquireKeepsInv(cfg: Config, s: Router, a: nat)
    requires Inv(cfg, s) && Enabled(cfg, s, Acquire(a))
    ensures Inv(cfg, Apply(cfg, s, Acquire(a)))
  {
    hide AnswersFit, CallsRouted, GoodTable, TicketFits, Fenced, ValidRouterRequest, Canon, CallProvider, Decide;
  }

  lemma DisconnectKeepsInv(cfg: Config, s: Router, a: nat)
    requires Inv(cfg, s) && Enabled(cfg, s, Disconnect(a))
    ensures Inv(cfg, Apply(cfg, s, Disconnect(a)))
  {
    hide AnswersFit, CallsRouted, GoodTable, TicketFits, Fenced, ValidRouterRequest, Canon, CallProvider, Decide;
  }

  lemma VanishKeepsInv(cfg: Config, s: Router, a: nat)
    requires Inv(cfg, s) && Enabled(cfg, s, Vanish(a))
    ensures Inv(cfg, Apply(cfg, s, Vanish(a)))
  {
    hide AnswersFit, CallsRouted, GoodTable, TicketFits, Fenced, ValidRouterRequest, Canon, CallProvider, Decide;
  }

  lemma RefuseCallKeepsInv(cfg: Config, s: Router, a: nat)
    requires Inv(cfg, s) && Enabled(cfg, s, RefuseCall(a))
    ensures Inv(cfg, Apply(cfg, s, RefuseCall(a)))
  {
    hide AnswersFit, CallsRouted, GoodTable, TicketFits, Fenced, ValidRouterRequest, Canon, CallProvider, Decide;
  }

  lemma SendCallKeepsInv(cfg: Config, s: Router, a: nat)
    requires Inv(cfg, s) && Enabled(cfg, s, SendCall(a))
    ensures Inv(cfg, Apply(cfg, s, SendCall(a)))
  {
    hide AnswersFit, GoodTable, Fenced, CallProvider, Decide;
  }

  lemma ReturnKeepsInv(cfg: Config, s: Router, a: nat, answer: Answer)
    requires Inv(cfg, s) && Enabled(cfg, s, Return(a, answer))
    ensures Inv(cfg, Apply(cfg, s, Return(a, answer)))
  {
    hide AnswersFit, CallsRouted, GoodTable, TicketFits, Fenced, ValidRouterRequest, Canon, CallProvider, Decide;
  }

  lemma AnswersSurvive(s: Router, table: Table)
    requires AnswersFit(s.table, s.answers) && Evolves(table, s.table)
    ensures AnswersFit(table, s.answers)
  {
  }

  lemma EndedKeepsInv(cfg: Config, s: Router, a: nat)
    requires Inv(cfg, s) && a in s.attempts
    ensures Inv(cfg, Ended(cfg, s, a)) && Ended(cfg, s, a).table == s.table
  {
    VanishKeepsInv(cfg, s, a);
  }

  lemma TickKeepsInv(cfg: Config, s: Router, now: int)
    requires Inv(cfg, s) && s.clock <= now
    ensures Inv(cfg, s.(clock := now))
  {
    hide AnswersFit, CallsRouted, TicketFits, Fenced;
  }

  lemma AnswerKeepsInv(cfg: Config, s: Router, a: nat, ans: PaymentResponse)
    requires Inv(cfg, s) && a !in s.attempts && AnswerFits(s.table, ans)
    ensures Inv(cfg, s.(answers := s.answers[a := ans]))
  {
    hide CallsRouted, GoodTable, TicketFits, Fenced;
  }

  /** A row that no holder is charging may change as the table allows. */
  lemma RowChangeKeepsInv(cfg: Config, s: Router, key: string, row: Row, now: int, claims: map<string, nat>)
    requires Inv(cfg, s)
    requires GoodTable(s.table[key := row], now) && Evolves(s.table[key := row], s.table)
    requires forall b :: b in s.attempts && HasTicket(s.attempts[b].phase) && s.attempts[b].key == key ==>
               !Holds(cfg, s, b)
    ensures Inv(cfg, s.(clock := now, table := s.table[key := row], claims := claims))
  {
    hide AnswersFit, GoodTable, Fenced;
    AnswersSurvive(s, s.table[key := row]);
  }

  /** Writing the row under its lock leaves every other lock holder's row alone. */
  lemma WrittenKeepsInv(cfg: Config, s: Router, a: nat, now: int, routerNow: int, id: string)
    requires Inv(cfg, s) && Enabled(cfg, s, Reserve(a, now, routerNow, id, Reported))
    requires Decided(cfg, s, a, routerNow).Claim? || Decided(cfg, s, a, routerNow).Fresh?
    ensures var s' := Written(cfg, s, a, now, routerNow, id);
            Inv(cfg, s') && Evolves(s'.table, s.table)
  {
    var d := Decided(cfg, s, a, routerNow);
    var key := s.attempts[a].key;
    ReservedKeepsTable(s.table, key, s.attempts[a].req, d, cfg.delay, routerNow, id, s.clock, now);
    var s' := Written(cfg, s, a, now, routerNow, id);
    hide Inv, Reserved, GoodTable, Evolves, Decide;
    RowChangeKeepsInv(cfg, s, key, s'.table[key], now, s'.claims);
  }

  /** Granting the ticket: its lease is this instant, so no other attempt carries it. */
  lemma GrantKeepsInv(cfg: Config, s: Router, a: nat)
    requires Inv(cfg, s) && Holds(cfg, s, a) && s.attempts[a].phase.Locked? && s.attempts[a].key in s.table
    requires s.table[s.attempts[a].key].status.Pending?
    requires forall b :: b in s.attempts && HasTicket(s.attempts[b].phase) && s.attempts[b].key == s.attempts[a].key ==>
               s.attempts[b].phase.ticket.lease < s.table[s.attempts[a].key].updatedAt
    ensures Inv(cfg, WithPhase(s, a, Charging(TicketOf(s.table[s.attempts[a].key]))))
  {
  }

  lemma ReservationIsGranted(cfg: Config, s: Router, a: nat, now: int, routerNow: int, id: string)
    requires Inv(cfg, s) && Enabled(cfg, s, Reserve(a, now, routerNow, id, Reported))
    requires Decided(cfg, s, a, routerNow).Claim? || Decided(cfg, s, a, routerNow).Fresh?
    ensures var written := Written(cfg, s, a, now, routerNow, id);
            Inv(cfg, WithPhase(written, a, Charging(TicketOf(written.table[s.attempts[a].key]))))
  {
    WrittenKeepsInv(cfg, s, a, now, routerNow, id);
    var key := s.attempts[a].key;
    var written := Written(cfg, s, a, now, routerNow, id);
    assert written.table[key].status.Pending? && written.table[key].updatedAt == now by {
      hide Inv, Accepts, Canon, Columns, GatewayFor;
    }
    assert Holds(cfg, written, a) by { hide Inv, Decide, Reserved; }
    assert forall b :: b in s.attempts && HasTicket(s.attempts[b].phase) && s.attempts[b].key == key ==>
        s.attempts[b].phase.ticket.lease < now by {
      hide HoldersCurrent, LeasesDiffer, LocksOwned, LostOrHolding, AnswersFit, CallsRouted, AnswerOnce, Decide;
      hide Reserved;
      GoodRow(s.table, key, s.clock);
    }
    hide *;
    GrantKeepsInv(cfg, written, a);
  }

  lemma ReadOnlyReserveKeepsInv(cfg: Config, s: Router, a: nat, now: int, routerNow: int, id: string, outcome: Outcome)
    requires Inv(cfg, s) && Enabled(cfg, s, Reserve(a, now, routerNow, id, outcome))
    requires Decided(cfg, s, a, routerNow).Conflict? || Decided(cfg, s, a, routerNow).Replayed? || outcome.NotDone?
    ensures var s' := ApplyReserve(cfg, s, a, now, routerNow, id, outcome);
            Inv(cfg, s') && s'.table == s.table
  {
    TickKeepsInv(cfg, s, now);
    EndedKeepsInv(cfg, s.(clock := now), a);
    if Decided(cfg, s, a, routerNow).Replayed? {
      hide Inv, Accepts;
      AnswerKeepsInv(cfg, Ended(cfg, s.(clock := now), a), a, View(s.attempts[a].key, s.table[s.attempts[a].key]));
    }
  }

  lemma ReserveKeepsInv(cfg: Config, s: Router, a: nat, now: int, routerNow: int, id: string, outcome: Outcome)
    requires Inv(cfg, s) && Enabled(cfg, s, Reserve(a, now, routerNow, id, outcome))
    ensures var s' := Apply(cfg, s, Reserve(a, now, routerNow, id, outcome));
            Inv(cfg, s') && Evolves(s'.table, s.table)
  {
    hide Inv, Decide, Reserved, Ended, GoodTable, TicketFits;
    if Decided(cfg, s, a, routerNow).Conflict? || Decided(cfg, s, a, routerNow).Replayed? || outcome.NotDone? {
      ReadOnlyReserveKeepsInv(cfg, s, a, now, routerNow, id, outcome);
    } else {
      WrittenKeepsInv(cfg, s, a, now, routerNow, id);
      if outcome.Reported? {
        ReservationIsGranted(cfg, s, a, now, routerNow, id);
      } else {
        EndedKeepsInv(cfg, Written(cfg, s, a, now, routerNow, id), a);
      }
    }
  }

  /** Finishing a row that nobody holds leaves the invariant. */
  lemma RowWriteKeepsInv(cfg: Config, s: Router, key: string, r: ProviderResult, now: int)
    requires Inv(cfg, s) && key in s.table && s.table[key].status.Pending? && s.clock < now
    requires forall b :: b in s.attempts && HasTicket(s.attempts[b].phase) && s.attempts[b].key == key ==>
               !Holds(cfg, s, b)
    ensures var table := s.table[key := Finished(s.table[key], r, now)];
            Inv(cfg, s.(clock := now, table := table)) && Evolves(table, s.table)
  {
    GoodRow(s.table, key, s.clock);
    RowChangeKeepsTable(s.table, key, Finished(s.table[key], r, now), s.clock, now);
    hide Inv, GoodTable, Evolves;
    RowChangeKeepsInv(cfg, s, key, Finished(s.table[key], r, now), now, s.claims);
  }

  /** The fenced write disturbs nobody who still holds a lock: a holder's lease differs from every
      other, so the write under another lease does not match the holder's row. */
  lemma FencedWriteKeepsInv(cfg: Config, s: Router, key: string, t: Ticket, r: ProviderResult, now: int)
    requires Inv(cfg, s) && TicketFits(s.table, key, t) && s.clock < now
    requires forall b :: b in s.attempts && HasTicket(s.attempts[b].phase) && s.attempts[b].key == key ==>
               s.attempts[b].phase.ticket.lease != t.lease
    ensures var table := FencedWrite(s.table, t.id, t.lease, r, now);
            Inv(cfg, s.(clock := now, table := table)) && Evolves(table, s.table)
  {
    FencedWriteIsOneRow(s.table, key, t.lease, r, now);
    if Fenced(s.table[key], t.id, t.lease) {
      RowWriteKeepsInv(cfg, s, key, r, now);
    } else {
      TickKeepsInv(cfg, s, now);
    }
  }

  /** All a result write does: the attempt is over and has answered, and the table took the write. */
  lemma PersistShape(cfg: Config, s: Router, a: nat, now: int, outcome: Outcome)
    requires Enabled(cfg, s, Persist(a, now, outcome))
    ensures a in s.attempts && s.attempts[a].phase.Returned? && s.clock < now
    ensures var Attempt(key, _, Returned(t, r)) := s.attempts[a];
            var s' := Apply(cfg, s, Persist(a, now, outcome));
            && a in s'.answers
            && s' == Ended(cfg, s, a).(
                 clock := now, answers := s.answers[a := s'.answers[a]],
                 table := if outcome.NotDone? then s.table else FencedWrite(s.table, t.id, t.lease, r, now))
  {
    hide FencedWrite, Affected, ValidRouterRequest, Canon, Decide, CallProvider;
  }

  lemma PersistKeepsInv(cfg: Config, s: Router, a: nat, now: int, outcome: Outcome)
    requires Inv(cfg, s) && Enabled(cfg, s, Persist(a, now, outcome))
    ensures var s' := Apply(cfg, s, Persist(a, now, outcome));
            Inv(cfg, s') && Evolves(s'.table, s.table)
  {
    hide Inv, FencedWrite, Affected, AnswerFits, GoodTable, TicketFits, Enabled, Apply;
    PersistShape(cfg, s, a, now, outcome);
    var Attempt(key, _, Returned(t, r)) := s.attempts[a];
    EndedKeepsInv(cfg, s, a);
    var ended := Ended(cfg, s, a);
    PersistFacts(cfg, s, a);
    PersistedAnswerFits(cfg, s, a, now, outcome);
    var s' := Apply(cfg, s, Persist(a, now, outcome));
    if outcome.NotDone? {
      TickKeepsInv(cfg, ended, now);
    } else {
      FencedWriteKeepsInv(cfg, ended, key, t, r, now);
    }
    AnswerKeepsInv(cfg, ended.(clock := now, table := s'.table), a, s'.answers[a]);
  }

  lemma PersistFacts(cfg: Config, s: Router, a: nat)
    requires Inv(cfg, s) && a in s.attempts && HasTicket(s.attempts[a].phase)
    ensures var Attempt(key, _, p) := s.attempts[a];
            && TicketFits(s.table, key, p.ticket)
            && forall b :: b in s.attempts - {a} && HasTicket(s.attempts[b].phase) && s.attempts[b].key == key ==>
                 s.attempts[b].phase.ticket.lease != p.ticket.lease
  {
  }

  /** What a finished attempt answers is about its row, and terminal only if it is the row. */
  lemma PersistedAnswerFits(cfg: Config, s: Router, a: nat, now: int, outcome: Outcome)
    requires Inv(cfg, s) && Enabled(cfg, s, Persist(a, now, outcome))
    ensures var s' := Apply(cfg, s, Persist(a, now, outcome));
            a in s'.answers && AnswerFits(s'.table, s'.answers[a])
  {
    var Attempt(key, _, Returned(t, r)) := s.attempts[a];
    PersistFacts(cfg, s, a);
    assert UniqueIds(s.table);
    hide Inv, UniqueIds, FencedWrite, Affected, LeasesDiffer, HoldersCurrent;
    FencedWriteIsOneRow(s.table, key, t.lease, r, now);
  }
}
