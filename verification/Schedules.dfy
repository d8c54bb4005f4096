/** Named schedules: the pieces a payment is made of, and the one way a FAILED payment can still be
    charged. */
module Schedules {
  import opened Payments
  import opened Adapters
  import opened PaymentsTable
  import opened PaymentSystem
  import L = LedgerMachine
  import R = RouterMachine
  import RouterTheorems
  import opened Guarantees

  /******* The gateway's part *******/

  /** A request to a process whose mutex is free ends, without faults, in a 200 answer: the recorded
      result if there is one, a fresh decision otherwise. */
  function Decided(p: L.Process, g: GatewayName, key: string, approve: bool, stamp: string): L.Entry {
    if key in L.Results(p.mem, g) then L.Results(p.mem, g)[key] else L.NewEntry(g, approve, stamp)
  }

  function GatewaySchedule(p: L.Process, g: GatewayName, h: nat, key: string, approve: bool, stamp: string): seq<Step> {
    if key in L.Results(p.mem, g) then [GatewayStep(g, L.Arrive(h, g, key))]
    else [GatewayStep(g, L.Arrive(h, g, key)), GatewayStep(g, L.Decide(h, approve, stamp)), GatewayStep(g, L.Stored)]
  }

  /** One more step of one gateway. */
  lemma GatewayThen(cfg: R.Config, s: System, steps: seq<Step>, m: System, g: GatewayName, l: L.Step)
    returns (m': System)
    requires Exec(cfg, s, steps) == Some(m)
    requires L.Enabled(Gateway(m, g), l) && (l.Arrive? ==> l.g == g && R.Call(g, l.key) in m.router.called)
    ensures Exec(cfg, s, steps + [GatewayStep(g, l)]) == Some(m')
    ensures Gateway(m', g) == L.Apply(Gateway(m, g), l) && m' == WithGateway(m, g, Gateway(m', g))
  {
    hide R.Enabled, R.Apply, L.Enabled, L.Apply;
    Then(cfg, s, steps, m, GatewayStep(g, l));
    m' := Apply(cfg, m, GatewayStep(g, l));
  }

  lemma GatewayAnswers(cfg: R.Config, m: System, g: GatewayName, h: nat, key: string, approve: bool, stamp: string)
    returns (m': System)
    requires Gateway(m, g).storing.None? && L.DiskInStep(Gateway(m, g)) && h !in Gateway(m, g).handlers
    requires key != "" && R.Call(g, key) in m.router.called
    ensures Exec(cfg, m, GatewaySchedule(Gateway(m, g), g, h, key, approve, stamp)) == Some(m')
    ensures m' == WithGateway(m, g, Gateway(m', g))
    ensures var e := Decided(Gateway(m, g), g, key, approve, stamp);
            && L.Reply(g, key, e) in Gateway(m', g).replies
            && key in L.Results(Gateway(m', g).disk, g) && L.Results(Gateway(m', g).disk, g)[key] == e
  {
    L.FreshRequestIsStored(Gateway(m, g), h, g, key, approve, stamp);
    assert Exec(cfg, m, []) == Some(m);
    ScheduleIsInSteps(Gateway(m, g), g, h, key, approve, stamp);
    hide Exec, GatewaySchedule, Enabled, Apply, L.Enabled, L.Apply, L.DiskInStep, L.NewEntry;
    var arrive, decide := L.Arrive(h, g, key), L.Decide(h, approve, stamp);
    m' := GatewayThen(cfg, m, [], m, g, arrive);
    if key !in L.Results(Gateway(m, g).mem, g) {
      m' := GatewayThen(cfg, m, [] + [GatewayStep(g, arrive)], m', g, decide);
      m' := GatewayThen(cfg, m, [] + [GatewayStep(g, arrive)] + [GatewayStep(g, decide)], m', g, L.Stored);
    }
  }

  lemma ScheduleIsInSteps(p: L.Process, g: GatewayName, h: nat, key: string, approve: bool, stamp: string)
    ensures var first := [] + [GatewayStep(g, L.Arrive(h, g, key))];
            GatewaySchedule(p, g, h, key, approve, stamp) ==
              if key in L.Results(p.mem, g) then first
              else first + [GatewayStep(g, L.Decide(h, approve, stamp))] + [GatewayStep(g, L.Stored)]
  {
  }

  /******* The router's part *******/

  /** From the queue to the provider call. */
  function CallSchedule(a: nat, now: int, routerNow: int, id: string): seq<Step> {
    [RouterStep(R.Acquire(a)), RouterStep(R.Reserve(a, now, routerNow, id, R.Reported)), RouterStep(R.SendCall(a))]
  }

  lemma LockIsTaken(cfg: R.Config, m: System, a: nat, key: string, req: RouterPaymentRequest) returns (m': System)
    requires a in m.router.attempts && m.router.attempts[a] == R.Attempt(key, req, R.Queued)
             && cfg.lockOf(key) !in m.router.locks
    ensures Exec(cfg, m, [RouterStep(R.Acquire(a))]) == Some(m')
    ensures m' == m.(router := m.router.(attempts := m.router.attempts[a := R.Attempt(key, req, R.Locked)],
                                         locks := m.router.locks[cfg.lockOf(key) := a]))
  {
    hide ValidRouterRequest, Canon, CallProvider, R.ApplyReserve, R.ApplyPersist;
    assert Exec(cfg, m, []) == Some(m);
    Then(cfg, m, [], m, RouterStep(R.Acquire(a)));
    assert [] + [RouterStep(R.Acquire(a))] == [RouterStep(R.Acquire(a))];
    m' := Apply(cfg, m, RouterStep(R.Acquire(a)));
  }

  /** One more step of the router. */
  lemma RouterThen(cfg: R.Config, s: System, steps: seq<Step>, m: System, r: R.Step) returns (m': System)
    requires Exec(cfg, s, steps) == Some(m) && R.Enabled(cfg, m.router, r)
    requires r.Return? ==> Heard(m, m.router.attempts[r.a].phase.ticket.gateway, m.router.attempts[r.a].key, r.answer)
    ensures Exec(cfg, s, steps + [RouterStep(r)]) == Some(m') && m' == m.(router := R.Apply(cfg, m.router, r))
  {
    ReturnerIsCalling(cfg, m.router, r);
    hide R.Enabled, R.Apply, Heard;
    Then(cfg, s, steps, m, RouterStep(r));
    m' := Apply(cfg, m, RouterStep(r));
  }

  lemma ReturnerIsCalling(cfg: R.Config, router: R.Router, r: R.Step)
    requires R.Enabled(cfg, router, r)
    ensures r.Return? ==> r.a in router.attempts && router.attempts[r.a].phase.Calling?
  {
  }

  /** The router's side of the two middle steps of a call. */
  lemma ReserveAndSend(cfg: R.Config, r: R.Router, a: nat, key: string, req: RouterPaymentRequest, now: int,
                       routerNow: int, id: string)
    requires a in r.attempts && r.attempts[a] == R.Attempt(key, req, R.Locked) && R.Holds(cfg, r, a)
    requires r.clock < now && routerNow <= now + cfg.skew
    requires var d := Decide(r.table, key, req, cfg.delay, routerNow);
             d.Claim? || (d.Fresh? && forall k :: k in r.table ==> r.table[k].id != id)
    ensures var reserve := R.Reserve(a, now, routerNow, id, R.Reported);
            && R.Enabled(cfg, r, reserve)
            && var r2 := R.Apply(cfg, r, reserve);
            && R.Enabled(cfg, r2, R.SendCall(a))
            && var r3, d := R.Apply(cfg, r2, R.SendCall(a)), Decide(r.table, key, req, cfg.delay, routerNow);
            var table := Reserved(r.table, key, req, d, id, now);
            && r3.table == table && key in table && r3.clock == now
            && r3.attempts == r.attempts[a := R.Attempt(key, req, R.Calling(R.TicketOf(table[key])))]
            && r3.locks == r.locks && r3.dropped == r.dropped && r3.answers == r.answers
            && R.Call(table[key].gateway, key) in r3.called
  {
    hide ValidRouterRequest, Canon, Accepts, NewRow, CallProvider, R.ApplyPersist;
  }

  /** With the lock free, an attempt that reserves the row gets as far as its provider call. */
  lemma CallIsSent(cfg: R.Config, m: System, a: nat, key: string, req: RouterPaymentRequest, now: int, routerNow: int,
                   id: string)
    returns (m': System)
    requires a in m.router.attempts && m.router.attempts[a] == R.Attempt(key, req, R.Queued)
             && cfg.lockOf(key) !in m.router.locks
    requires m.router.clock < now && routerNow <= now + cfg.skew
    requires var d := Decide(m.router.table, key, req, cfg.delay, routerNow);
             d.Claim? || (d.Fresh? && forall k :: k in m.router.table ==> m.router.table[k].id != id)
    ensures Exec(cfg, m, CallSchedule(a, now, routerNow, id)) == Some(m') && m' == m.(router := m'.router)
    ensures var d := Decide(m.router.table, key, req, cfg.delay, routerNow);
            var table := Reserved(m.router.table, key, req, d, id, now);
            && m'.router.table == table && key in table && m'.router.clock == now
            && m'.router.attempts == m.router.attempts[a := R.Attempt(key, req, R.Calling(R.TicketOf(table[key])))]
            && m'.router.locks == m.router.locks[cfg.lockOf(key) := a] && m'.router.dropped == m.router.dropped
            && R.Call(table[key].gateway, key) in m'.router.called
            && m'.router.answers == m.router.answers
  {
    hide R.Enabled, R.Apply, Enabled, Apply, Exec, Decide, Reserved;
    var reserve, send := R.Reserve(a, now, routerNow, id, R.Reported), R.SendCall(a);
    m' := LockIsTaken(cfg, m, a, key, req);
    ReserveAndSend(cfg, m'.router, a, key, req, now, routerNow, id);
    m' := RouterThen(cfg, m, [RouterStep(R.Acquire(a))], m', reserve);
    m' := RouterThen(cfg, m, [RouterStep(R.Acquire(a))] + [RouterStep(reserve)], m', send);
    assert [RouterStep(R.Acquire(a))] + [RouterStep(reserve)] + [RouterStep(send)]
           == CallSchedule(a, now, routerNow, id);
  }

  function SettleSchedule(a: nat, answer: Answer, now: int): seq<Step> {
    [RouterStep(R.Return(a, answer)), RouterStep(R.Persist(a, now, R.Reported))]
  }

  /** The router's side of it. */
  lemma ReturnAndPersist(cfg: R.Config, r: R.Router, a: nat, answer: Answer, now: int)
    requires a in r.attempts && r.attempts[a].phase.Calling? && r.clock < now
    requires UniqueIds(r.table) && r.attempts[a].key in r.table && r.table[r.attempts[a].key].status.Pending?
    requires r.attempts[a].phase.ticket == R.TicketOf(r.table[r.attempts[a].key])
    ensures R.Enabled(cfg, r, R.Return(a, answer))
    ensures var r2 := R.Apply(cfg, r, R.Return(a, answer));
            && R.Enabled(cfg, r2, R.Persist(a, now, R.Reported))
            && var r3, key := R.Apply(cfg, r2, R.Persist(a, now, R.Reported)), r.attempts[a].key;
            && r3.table == r.table[key := Finished(r.table[key], CallProvider(r.table[key].gateway, answer), now)]
            && r3.answers == r.answers[a := View(key, r3.table[key])] && r3.called == r.called
  {
    hide CallProvider, ValidRouterRequest, Canon, Decide;
    var key := r.attempts[a].key;
    FencedWriteIsOneRow(r.table, key, r.table[key].updatedAt, CallProvider(r.table[key].gateway, answer), now);
    hide FencedWrite, Affected, UniqueIds;
  }

  /** An answer the attempt may hear, under the row's current lease, becomes the row and the reply. */
  lemma AnswerIsRecorded(cfg: R.Config, m: System, a: nat, answer: Answer, now: int) returns (m': System)
    requires a in m.router.attempts && m.router.attempts[a].phase.Calling? && m.router.clock < now
    requires Heard(m, m.router.attempts[a].phase.ticket.gateway, m.router.attempts[a].key, answer)
    requires UniqueIds(m.router.table) && m.router.attempts[a].key in m.router.table
    requires m.router.attempts[a].phase.ticket == R.TicketOf(m.router.table[m.router.attempts[a].key])
    requires m.router.table[m.router.attempts[a].key].status.Pending?
    ensures Exec(cfg, m, SettleSchedule(a, answer, now)) == Some(m') && m' == m.(router := m'.router)
    ensures var key := m.router.attempts[a].key;
            var row := m.router.table[key];
            && m'.router.table == m.router.table[key := Finished(row, CallProvider(row.gateway, answer), now)]
            && m'.router.answers == m.router.answers[a := View(key, m'.router.table[key])]
            && m'.router.called == m.router.called
  {
    hide CallProvider, Heard, R.Enabled, R.Apply, Finished;
    assert Exec(cfg, m, []) == Some(m);
    hide Exec;
    var back, persist := R.Return(a, answer), R.Persist(a, now, R.Reported);
    ReturnAndPersist(cfg, m.router, a, answer, now);
    m' := RouterThen(cfg, m, [], m, back);
    m' := RouterThen(cfg, m, [] + [RouterStep(back)], m', persist);
    assert [] + [RouterStep(back)] + [RouterStep(persist)] == SettleSchedule(a, answer, now);
  }

  lemma HeardFromReply(s: System, g: GatewayName, key: string, e: L.Entry)
    requires L.Reply(g, key, e) in Gateway(s, g).replies
    ensures Heard(s, g, key, L.Encode(g, e)) && CallProvider(g, L.Encode(g, e)) == L.Outcome(g, e)
  {
    L.EntriesDecode(g, e);
  }

  /******* FAILED and charged *******/

  ghost predicate MayBeCharged(cfg: R.Config, s: System, key: string) {
    exists steps :: Exec(cfg, s, steps).Some? && key in ChargedKeys(Exec(cfg, s, steps).value)
  }

  predicate Refused(s: System, key: string)
    requires key in s.router.table
  {
    var m := L.Results(Gateway(s, s.router.table[key].gateway).disk, s.router.table[key].gateway);
    key in m && !m[key].approved
  }

  /** A recorded refusal is final: the key is never charged. */
  lemma RefusedIsNeverCharged(cfg: R.Config, s: System, key: string, steps: seq<Step>)
    requires Reachable(cfg, s) && key in s.router.table && Refused(s, key) && Exec(cfg, s, steps).Some?
    ensures key !in ChargedKeys(Exec(cfg, s, steps).value)
  {
    hide Reachable, Good, L.Extends;
    var s' := Exec(cfg, s, steps).value;
    ReachableIsGood(cfg, s);
    ExecIsGood(cfg, s, steps);
    SlotsOfGood(cfg, s');
    ChargesAreRouted(s');
    RefusalIsKept(s, s', key);
  }

  lemma RefusalIsKept(s: System, s': System, key: string)
    requires key in s.router.table && Refused(s, key) && Grows(s, s')
    ensures key in s'.router.table && Refused(s', key)
  {
  }

  lemma SlotsOfGood(cfg: R.Config, s: System)
    requires Good(cfg, s)
    ensures Asked(s.router.called, GatewayCard, s.card) && Asked(s.router.called, GatewayBank, s.bank)
            && R.CallsRouted(s.router.table, s.router.called)
  {
  }

  /** After a restart the provider decides whatever key the router ever called for, unless the file
      already holds its result. */
  lemma RestartedGatewayCharges(cfg: R.Config, s: System, g: GatewayName, key: string) returns (s': System)
    requires key != "" && R.Call(g, key) in s.router.called
    requires key in L.Results(Gateway(s, g).disk, g) ==> L.Results(Gateway(s, g).disk, g)[key].approved
    ensures exists steps :: Exec(cfg, s, steps) == Some(s')
    ensures key in L.Results(Gateway(s', g).disk, g) && L.Results(Gateway(s', g).disk, g)[key].approved
  {
    hide R.Enabled, R.Apply;
    var restart := GatewayStep(g, L.Restart);
    assert Exec(cfg, s, []) == Some(s);
    Then(cfg, s, [], s, restart);
    var m := Apply(cfg, s, restart);
    s' := GatewayAnswers(cfg, m, g, 0, key, true, "");
    ThenAll(cfg, s, [] + [restart], GatewaySchedule(Gateway(m, g), g, 0, key, true, ""));
  }

  /** The answers that callProvider turns into FAILED although no provider decided anything. */
  predicate Rejection(answer: Answer) { answer.Http? && 400 <= answer.code < 500 && answer.code != 408 }

  /** A run in which providers answer anything else: an approval, a refusal, 408, 5xx, garbage, nothing. */
  predicate RejectionFree(steps: seq<Step>) {
    forall i :: 0 <= i < |steps| && steps[i].RouterStep? && steps[i].r.Return? ==> !Rejection(steps[i].r.answer)
  }

  predicate Rejected(r: ProviderResult) { r.status.Failed? && r.error == REJECTED_REQUEST }

  predicate NothingRejected(r: R.Router) {
    && (forall k :: k in r.table ==> !Rejected(RowResult(r.table[k])))
    && (forall a :: a in r.attempts && r.attempts[a].phase.Returned? ==> !Rejected(r.attempts[a].phase.result))
  }

  lemma StepRejectsNothing(cfg: R.Config, r: R.Router, step: R.Step)
    requires R.Inv(cfg, r) && R.Enabled(cfg, r, step) && NothingRejected(r)
    requires step.Return? ==> !Rejection(step.answer)
    ensures NothingRejected(R.Apply(cfg, r, step))
  {
    hide R.Inv, R.Apply, R.Enabled, NothingRejected, RouterTheorems.ResultsTraced;
    if step.Return? {
      ReturnRejectsNothing(cfg, r, step.a, step.answer);
    } else {
      RouterTheorems.StepTraced(cfg, r, step);
      TracedRejectsNothing(r, R.Apply(cfg, r, step), step);
    }
  }

  lemma ReturnRejectsNothing(cfg: R.Config, r: R.Router, a: nat, answer: Answer)
    requires NothingRejected(r) && R.Enabled(cfg, r, R.Return(a, answer)) && !Rejection(answer)
    ensures NothingRejected(R.Apply(cfg, r, R.Return(a, answer)))
  {
    VerdictsAreTheProviders(r.attempts[a].phase.ticket.gateway, answer);
    hide CallProvider, ValidRouterRequest, Canon, Decide;
  }

  lemma TracedRejectsNothing(r: R.Router, r': R.Router, step: R.Step)
    requires NothingRejected(r) && RouterTheorems.ResultsTraced(r, r', step) && !step.Return?
    ensures NothingRejected(r')
  {
  }

  /** The 4xx text enters a row only through such an answer. */
  lemma {:induction false} RunRejectsNothing(cfg: R.Config, steps: seq<Step>)
    requires RejectionFree(steps) && Exec(cfg, INITIAL, steps).Some?
    ensures NothingRejected(Exec(cfg, INITIAL, steps).value.router)
  {
    if steps != [] {
      hide Enabled, Apply, NothingRejected, R.Inv;
      var before, step := steps[..|steps| - 1], steps[|steps| - 1];
      RunRejectsNothing(cfg, before);
      var m := Exec(cfg, INITIAL, before).value;
      assert Reachable(cfg, m);
      hide Reachable;
      RouterIsGood(cfg, m);
      OneMoreRejectsNothing(cfg, m, step);
    }
  }

  lemma OneMoreRejectsNothing(cfg: R.Config, m: System, step: Step)
    requires R.Inv(cfg, m.router) && Enabled(cfg, m, step) && NothingRejected(m.router)
    requires step.RouterStep? && step.r.Return? ==> !Rejection(step.r.answer)
    ensures NothingRejected(Apply(cfg, m, step).router)
  {
    hide R.Inv, R.Enabled, R.Apply, L.Enabled, L.Apply, NothingRejected, Rejection, OperatorEnabled, ApplyOperator;
    hide Heard, MayPost;
    match step
    case RouterStep(r) => StepRejectsNothing(cfg, m.router, r);
    case Post(c, a, req) => StepRejectsNothing(cfg, m.router, R.Arrive(a, m.operator.serving[c].key, req));
    case GatewayStep(_, _) =>
    case OperatorStep(_) =>
  }

  /** FAILED means not charged. After any run in which no provider answered with a 4xx other than 408, a
      FAILED payment is not charged, and no continuation ever charges it, whatever is answered then. */
  lemma FailedIsNeverCharged(cfg: R.Config, steps: seq<Step>, later: seq<Step>, key: string)
    requires RejectionFree(steps) && Exec(cfg, INITIAL, steps).Some?
    requires var s := Exec(cfg, INITIAL, steps).value;
             key in s.router.table && s.router.table[key].status.Failed? && Exec(cfg, s, later).Some?
    ensures key !in ChargedKeys(Exec(cfg, INITIAL, steps).value)
    ensures key !in ChargedKeys(Exec(cfg, Exec(cfg, INITIAL, steps).value, later).value)
  {
    var s := Exec(cfg, INITIAL, steps).value;
    assert Reachable(cfg, s);
    RunRejectsNothing(cfg, steps);
    assert !Rejected(RowResult(s.router.table[key]));
    hide Reachable, NothingRejected;
    FailedMayBeChargedIff(cfg, s, key);
    assert Exec(cfg, s, []) == Some(s);
  }

  /** Exactly which FAILED payments can still be charged, now or later: those failed by a 4xx answer
      whose key the gateway has not itself refused. So FAILED means not charged, for ever, precisely
      when the error is not the 4xx text or the gateway has recorded its refusal. */
  lemma FailedMayBeChargedIff(cfg: R.Config, s: System, key: string)
    requires Reachable(cfg, s) && key in s.router.table && s.router.table[key].status.Failed?
    ensures MayBeCharged(cfg, s, key) <==> s.router.table[key].error == REJECTED_REQUEST && !Refused(s, key)
  {
    hide Reachable, Good;
    if s.router.table[key].error != REJECTED_REQUEST {
      RowsTellTheTruth(cfg, s, key);
    }
    if Refused(s, key) {
      forall steps | Exec(cfg, s, steps).Some? ensures key !in ChargedKeys(Exec(cfg, s, steps).value) {
        RefusedIsNeverCharged(cfg, s, key, steps);
      }
    } else {
      FailedRowWasCalled(cfg, s, key);
      var s' := RestartedGatewayCharges(cfg, s, s.router.table[key].gateway, key);
      assert key in ChargedKeys(s');
    }
  }

  lemma FailedRowWasCalled(cfg: R.Config, s: System, key: string)
    requires Reachable(cfg, s) && key in s.router.table && s.router.table[key].status.Failed?
    ensures key != "" && R.Call(s.router.table[key].gateway, key) in s.router.called
  {
    hide Reachable, R.Inv, R.Paced;
    RouterIsGood(cfg, s);
  }

  /** The family is not empty: any valid first request can end FAILED and charged, when one copy of
      the provider call is answered 401 and another reaches the gateway after the row is FAILED. */
  lemma RejectedPaymentCanBeCharged(cfg: R.Config, key: string, req: RouterPaymentRequest) returns (s: System)
    requires key != "" && ValidRouterRequest(Canon(req))
    ensures Reachable(cfg, s)
    ensures key in s.router.table && s.router.table[key].status.Failed? && s.router.table[key].error == REJECTED_REQUEST
    ensures key in ChargedKeys(s)
  {
    hide R.Enabled, R.Apply, L.Enabled, L.Apply, ValidRouterRequest, Canon, Decide, Enabled, Apply, Heard, Reachable;
    var m := FirstArrives(cfg, key, req);
    var m2 := CallIsSent(cfg, m, 0, key, req, 1, 0, "id");
    var row := m2.router.table[key];
    ErrorIsHeard(m2, row.gateway, key);
    var m3 := AnswerIsRecorded(cfg, m2, 0, Http(401, Unparsable), 2);
    s := GatewayAnswers(cfg, m3, row.gateway, 0, key, true, "");
    ReachableThen(cfg, m, CallSchedule(0, 1, 0, "id"), m2);
    ReachableThen(cfg, m2, SettleSchedule(0, Http(401, Unparsable), 2), m3);
    ReachableThen(cfg, m3, GatewaySchedule(Gateway(m3, row.gateway), row.gateway, 0, key, true, ""), s);
  }

  lemma ReachableThen(cfg: R.Config, s: System, steps: seq<Step>, s': System)
    requires Reachable(cfg, s) && Exec(cfg, s, steps) == Some(s')
    ensures Reachable(cfg, s')
  {
    var before :| Exec(cfg, INITIAL, before) == Some(s);
    ThenAll(cfg, INITIAL, before, steps);
  }

  lemma FirstArrives(cfg: R.Config, key: string, req: RouterPaymentRequest) returns (m: System)
    requires key != "" && ValidRouterRequest(Canon(req))
    ensures Reachable(cfg, m)
    ensures m == INITIAL.(router := R.EMPTY_ROUTER.(attempts := map[0 := R.Attempt(key, req, R.Queued)]))
    ensures Decide(m.router.table, key, req, cfg.delay, 0).Fresh?
    ensures L.DiskInStep(m.card) && L.DiskInStep(m.bank)
  {
    var arrive := RouterStep(R.Arrive(0, key, req));
    assert Exec(cfg, INITIAL, []) == Some(INITIAL);
    Then(cfg, INITIAL, [], INITIAL, arrive);
    m := Apply(cfg, INITIAL, arrive);
  }

  /** Fencing is needed: for any valid request some run has two attempts at their provider call for one
      key at once, the first having lost its connection and the second having claimed the stale row;
      the first is fenced out. */
  lemma AttemptsCanOverlap(cfg: R.Config, key: string, req: RouterPaymentRequest) returns (s: System)
    requires key != "" && ValidRouterRequest(Canon(req))
    ensures Reachable(cfg, s) && 0 in s.router.attempts && 1 in s.router.attempts
    ensures var first, second := s.router.attempts[0], s.router.attempts[1];
            && first.key == second.key == key && first.phase.Calling? && second.phase.Calling?
            && first.phase.ticket.id == second.phase.ticket.id && first.phase.ticket.lease < second.phase.ticket.lease
            && Affected(s.router.table, first.phase.ticket.id, first.phase.ticket.lease) == {}
            && Affected(s.router.table, second.phase.ticket.id, second.phase.ticket.lease) == {key}
  {
    hide Reachable, ValidRouterRequest, Canon, Accepts, NewRow, Exec, Enabled, Apply;
    var m := FirstArrives(cfg, key, req);
    var called := CallIsSent(cfg, m, 0, key, req, 1, 0, "id");
    ReachableThen(cfg, m, CallSchedule(0, 1, 0, "id"), called);
    var lost := SecondArrives(cfg, called, key, req);
    var now := 2 + cfg.delay;
    FreshRowIsPending(m.router.table, key, req, cfg.delay, "id", 1);
    ResendIsAccepted(lost.router.table, key, req, cfg.delay, now);
    s := CallIsSent(cfg, lost, 1, key, req, now, now, "");
    ReachableThen(cfg, lost, CallSchedule(1, now, now, ""), s);
    IdsStayUnique(cfg, s);
    hide CallSchedule;
    FencedWriteIsOneRow(s.router.table, key, 1, ProviderResult(Pending, "", ""), 0);
    FencedWriteIsOneRow(s.router.table, key, now, ProviderResult(Pending, "", ""), 0);
  }

  lemma IdsStayUnique(cfg: R.Config, s: System)
    requires Reachable(cfg, s)
    ensures UniqueIds(s.router.table)
  {
    hide Reachable, Good;
    ReachableIsGood(cfg, s);
    IdsAreUnique(cfg, s);
  }

  lemma FreshRowIsPending(t: Table, key: string, req: RouterPaymentRequest, delay: nat, id: string, now: int)
    requires key !in t && ValidRouterRequest(Canon(req))
    ensures Decide(t, key, req, delay, 0).Fresh?
    ensures var row := Reserved(t, key, req, Fresh, id, now)[key];
            row.status.Pending? && row.updatedAt == now && row.id == id && row.digest == RequestHash(Canon(req))
  {
  }

  lemma ResendIsAccepted(t: Table, key: string, req: RouterPaymentRequest, delay: nat, now: int)
    requires key in t && t[key].status.Pending? && t[key].digest == RequestHash(Canon(req))
             && now - t[key].updatedAt >= delay
    ensures Decide(t, key, req, delay, now).Claim?
    ensures var row := Reserved(t, key, req, Claim, "", now)[key];
            row.status.Pending? && row.updatedAt == now && row.id == t[key].id
  {
  }

  /** The first attempt loses its connection at its provider call; a second one for the key arrives. */
  lemma SecondArrives(cfg: R.Config, s: System, key: string, req: RouterPaymentRequest) returns (m: System)
    requires Reachable(cfg, s) && key != "" && ValidRouterRequest(Canon(req))
    requires 0 in s.router.attempts && s.router.attempts[0].key == key && s.router.attempts[0].phase.Calling?
    requires R.Unused(s.router, 1) && R.Holds(cfg, s.router, 0)
    ensures Reachable(cfg, m) && cfg.lockOf(key) !in m.router.locks
    ensures m.router.table == s.router.table && m.router.clock == s.router.clock
    ensures m.router.attempts == s.router.attempts[1 := R.Attempt(key, req, R.Queued)]
  {
    hide Reachable, Exec, ValidRouterRequest, Canon;
    var lost := ConnectionIsLost(cfg, s, 0);
    m := RequestArrives(cfg, lost, 1, key, req);
    ReachableThen(cfg, s, [RouterStep(R.Disconnect(0))], lost);
    ReachableThen(cfg, lost, [RouterStep(R.Arrive(1, key, req))], m);
  }

  lemma ConnectionIsLost(cfg: R.Config, s: System, a: nat) returns (m: System)
    requires a in s.router.attempts && !s.router.attempts[a].phase.Queued? && R.Holds(cfg, s.router, a)
    ensures Exec(cfg, s, [RouterStep(R.Disconnect(a))]) == Some(m)
    ensures m == s.(router := s.router.(locks := s.router.locks - {R.LockId(cfg, s.router, a)},
                                        dropped := s.router.dropped + {a}))
  {
    var lose := RouterStep(R.Disconnect(a));
    assert Exec(cfg, s, []) == Some(s) && [] + [lose] == [lose];
    Then(cfg, s, [], s, lose);
    m := Apply(cfg, s, lose);
  }

  lemma RequestArrives(cfg: R.Config, s: System, a: nat, key: string, req: RouterPaymentRequest) returns (m: System)
    requires R.Unused(s.router, a) && key != "" && ValidRouterRequest(Canon(req))
    ensures Exec(cfg, s, [RouterStep(R.Arrive(a, key, req))]) == Some(m)
    ensures m == s.(router := s.router.(attempts := s.router.attempts[a := R.Attempt(key, req, R.Queued)]))
  {
    hide ValidRouterRequest, Canon;
    var arrive := RouterStep(R.Arrive(a, key, req));
    assert Exec(cfg, s, []) == Some(s) && [] + [arrive] == [arrive];
    Then(cfg, s, [], s, arrive);
    m := Apply(cfg, s, arrive);
  }

  lemma ErrorIsHeard(s: System, g: GatewayName, key: string)
    ensures Heard(s, g, key, Http(401, Unparsable))
  {
  }
}
