/** Which request travels: every row holds a canonical request under its own digest and gateway, and
    every attempt that got past the reservation carries exactly the stored request
    (cmd/payment-router/main.go:118-136, 178-181, 205-216). */
module RouterPayload {
  import opened Payments
  import opened Adapters
  import opened PaymentsTable
  import opened RouterMachine
  import RouterTheorems

  predicate RowsCarry(s: Router) { forall k :: k in s.table ==> k != "" && GoodPayload(s.table[k]) }

  predicate Carries(s: Router, a: Attempt) {
    && a.key != "" && ValidRouterRequest(Canon(a.req))
    && (HasTicket(a.phase) ==> a.key in s.table && s.table[a.key].req == Canon(a.req))
  }

  predicate PayloadInv(s: Router) {
    RowsCarry(s) && forall a :: a in s.attempts ==> Carries(s, s.attempts[a])
  }

  /** Nothing but a reservation touches a payload or hands out a ticket. */
  predicate PayloadUntouched(s: Router, s': Router) {
    && s'.table.Keys == s.table.Keys
    && (forall k :: k in s.table ==> SameFrozen(s'.table[k], s.table[k]))
    && (forall a :: a in s'.attempts ==>
          && a in s.attempts && s'.attempts[a].key == s.attempts[a].key && s'.attempts[a].req == s.attempts[a].req
          && (HasTicket(s'.attempts[a].phase) ==> HasTicket(s.attempts[a].phase)))
  }

  lemma PayloadFrame(s: Router, s': Router)
    requires PayloadInv(s) && PayloadUntouched(s, s')
    ensures PayloadInv(s')
  {
    hide RequestHash, Canonical, GatewayFor, ValidRouterRequest, Canon;
  }

  lemma ArriveKeepsPayload(cfg: Config, s: Router, a: nat, key: string, req: RouterPaymentRequest)
    requires PayloadInv(s) && Enabled(cfg, s, Arrive(a, key, req))
    ensures PayloadInv(Apply(cfg, s, Arrive(a, key, req)))
  {
  }

  /** The reserved row carries the canonical request, whether it is written now or was stored before. */
  lemma ReservedCarries(t: Table, key: string, req: RouterPaymentRequest, d: Decision, delay: nat, routerNow: int,
                        id: string, now: int)
    requires d == Decide(t, key, req, delay, routerNow) && ValidRouterRequest(Canon(req))
    requires key in t ==> GoodPayload(t[key])
    ensures var t' := Reserved(t, key, req, d, id, now);
            && (forall k :: k in t ==> k in t' && SameFrozen(t'[k], t[k]))
            && (forall k :: k in t' && k !in t ==> k == key && GoodPayload(t'[k]))
            && (d.Claim? || d.Fresh? ==> key in t' && t'[key].req == Canon(req))
  {
    hide ValidRouterRequest, Canon, Canonical, GatewayFor, Accepts, Columns;
    if d.Fresh? {
      NewRowPayload(id, req, now);
    } else {
      ServedIsStored(t[key], req);
    }
  }

  lemma CarriersKept(s: Router, s': Router, a: nat)
    requires PayloadInv(s) && a in s.attempts
    requires forall k :: k in s.table ==> k in s'.table && SameFrozen(s'.table[k], s.table[k])
    requires forall k :: k in s'.table && k !in s.table ==> k == s.attempts[a].key && GoodPayload(s'.table[k])
    requires forall b :: b in s'.attempts ==>
               && b in s.attempts && s'.attempts[b].key == s.attempts[b].key && s'.attempts[b].req == s.attempts[b].req
               && (s'.attempts[b] == s.attempts[b]
                   || (s.attempts[b].key in s'.table && s'.table[s.attempts[b].key].req == Canon(s.attempts[b].req)))
    ensures PayloadInv(s')
  {
    hide RequestHash, Canonical, GatewayFor, ValidRouterRequest, Canon;
    assert s.attempts[a].key != "" by { assert Carries(s, s.attempts[a]); }
  }

  lemma ReserveKeepsPayload(cfg: Config, s: Router, a: nat, now: int, routerNow: int, id: string, outcome: Outcome)
    requires PayloadInv(s) && Enabled(cfg, s, Reserve(a, now, routerNow, id, outcome))
    ensures PayloadInv(Apply(cfg, s, Reserve(a, now, routerNow, id, outcome)))
  {
    RouterTheorems.ReserveShape(cfg, s, a, now, routerNow, id, outcome);
    var key, req := s.attempts[a].key, s.attempts[a].req;
    assert ValidRouterRequest(Canon(req)) && (key in s.table ==> GoodPayload(s.table[key])) by {
      hide Enabled, Apply, ValidRouterRequest, Canon, GoodPayload;
      assert Carries(s, s.attempts[a]);
    }
    ReservedCarries(s.table, key, req, Decided(cfg, s, a, routerNow), cfg.delay, routerNow, id, now);
    hide Enabled, Apply, PayloadInv, ValidRouterRequest, Canon, GoodPayload, Decide, Reserved, SameFrozen;
    CarriersKept(s, Apply(cfg, s, Reserve(a, now, routerNow, id, outcome)), a);
  }

  lemma OtherStepsLeavePayload(cfg: Config, s: Router, step: Step)
    requires Enabled(cfg, s, step) && !step.Arrive? && !step.Reserve?
    ensures PayloadUntouched(s, Apply(cfg, s, step))
  {
  }

  lemma StepKeepsPayload(cfg: Config, s: Router, step: Step)
    requires PayloadInv(s) && Enabled(cfg, s, step)
    ensures PayloadInv(Apply(cfg, s, step))
  {
    hide ValidRouterRequest, Canon, Canonical, GatewayFor, Accepts, Columns;
    if step.Arrive? {
      ArriveKeepsPayload(cfg, s, step.a, step.key, step.req);
    } else if step.Reserve? {
      ReserveKeepsPayload(cfg, s, step.a, step.now, step.routerNow, step.id, step.outcome);
    } else {
      OtherStepsLeavePayload(cfg, s, step);
      PayloadFrame(s, Apply(cfg, s, step));
    }
  }

  /** Whatever the client sent, the provider is called with the frozen request, on its gateway. */
  lemma ProviderSeesTheFrozenRequest(cfg: Config, s: Router, a: nat)
    requires Inv(cfg, s) && PayloadInv(s) && a in s.attempts && s.attempts[a].phase.Calling?
    ensures var row := s.table[s.attempts[a].key];
            && StoredAsSent(row.req, s.attempts[a].req)
            && (s.attempts[a].phase.ticket.gateway.GatewayBank? <==> row.req.instrument == "bank_transfer")
  {
    assert Carries(s, s.attempts[a]) && GoodPayload(s.table[s.attempts[a].key]);
    CanonIsAsSent(s.table[s.attempts[a].key].req, s.attempts[a].req);
    BankIsBankTransfer(s.table[s.attempts[a].key].req.instrument);
  }

  /** No verdict without a call: a final result, in flight or recorded, belongs to a request that the
      router really sent to the row's gateway. */
  predicate CallsKnown(s: Router) {
    && (forall a :: a in s.attempts && s.attempts[a].phase.Calling? ==>
          Call(s.attempts[a].phase.ticket.gateway, s.attempts[a].key) in s.called)
    && (forall a :: a in s.attempts && s.attempts[a].phase.Returned? && Terminal(s.attempts[a].phase.result.status) ==>
          Call(s.attempts[a].phase.ticket.gateway, s.attempts[a].key) in s.called)
    && (forall k :: k in s.table && Terminal(s.table[k].status) ==> Call(s.table[k].gateway, k) in s.called)
  }

  lemma PhasesKeepCallsKnown(cfg: Config, s: Router, step: Step)
    requires CallsKnown(s) && Enabled(cfg, s, step) && !step.Reserve? && !step.Persist?
    ensures CallsKnown(Apply(cfg, s, step))
  {
    hide CallProvider, ValidRouterRequest, Canon;
  }

  lemma WritesKeepCallsKnown(s: Router, s': Router, step: Step)
    requires CallsKnown(s) && RouterTheorems.ResultsTraced(s, s', step) && !step.Return?
    requires s.called <= s'.called
    requires forall a :: a in s'.attempts && s'.attempts[a].phase.Calling? ==>
               a in s.attempts && s'.attempts[a] == s.attempts[a]
    ensures CallsKnown(s')
  {
  }

  lemma NoNewCalls(cfg: Config, s: Router, step: Step)
    requires Enabled(cfg, s, step) && (step.Reserve? || step.Persist?)
    ensures var s' := Apply(cfg, s, step);
            forall a :: a in s'.attempts && s'.attempts[a].phase.Calling? ==>
              a in s.attempts && s'.attempts[a] == s.attempts[a]
  {
    hide Decide, Reserved, FencedWrite;
  }

  lemma StepKeepsCallsKnown(cfg: Config, s: Router, step: Step)
    requires Inv(cfg, s) && CallsKnown(s) && Enabled(cfg, s, step)
    ensures CallsKnown(Apply(cfg, s, step))
  {
    hide Inv, Enabled, Apply, CallsKnown, RouterTheorems.ResultsTraced;
    if step.Reserve? || step.Persist? {
      RouterTheorems.StepTraced(cfg, s, step);
      RouterTheorems.StepKeepsInv(cfg, s, step);
      NoNewCalls(cfg, s, step);
      WritesKeepCallsKnown(s, Apply(cfg, s, step), step);
    } else {
      PhasesKeepCallsKnown(cfg, s, step);
    }
  }
}
