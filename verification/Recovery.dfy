/** A public replay of a pending order. First for every schedule: whatever all other requests,
    replicas, gateways and crashes do in between, a replay whose own steps suffer no fault ends with
    row, order and reply final and equal. Then for the schedule such a replay takes when nothing else
    happens. (cmd/payment-operator/main.go:114-148, 299-332; cmd/payment-router/main.go:178-241) */
module Recovery {
  import opened Payments
  import opened Adapters
  import opened PaymentsTable
  import opened PaymentSystem
  import L = LedgerMachine
  import R = RouterMachine
  import P = RouterPayload
  import RouterTheorems
  import opened Guarantees
  import opened Schedules

  /******* Every schedule *******/

  /** The attempt's own steps without a fault: it finds its payment finished or stale, the breaker lets
      it through, it keeps its connection, its writes are acknowledged, the provider's answer is final:
      a verdict, or a 4xx that the router takes for one. */
  predicate Sound(cfg: R.Config, r: R.Router, key: string, step: R.Step) {
    match step
    case Acquire(_) => true
    case Reserve(_, _, routerNow, _, outcome) =>
      && outcome.Reported? && key in r.table
      && (r.table[key].status.Pending? ==> routerNow - r.table[key].updatedAt >= cfg.delay)
    case SendCall(_) => true
    case Return(a, answer) =>
      && a in r.attempts && r.attempts[a].phase.Calling?
      && Terminal(CallProvider(r.attempts[a].phase.ticket.gateway, answer).status)
    case Persist(_, _, outcome) => outcome.Reported?
    case _ => false
  }

  /** Request c, posting as attempt a, is not harmed by the step; anything may happen to all others. */
  predicate Harmless(cfg: R.Config, s: System, key: string, c: nat, a: nat, step: Step) {
    match step
    case RouterStep(r) => r.a == a ==> Sound(cfg, s.router, key, r)
    case GatewayStep(_, _) => true
    case OperatorStep(o) => o.c == c ==> o.Fetch? || o.Hear?
    case Post(c', a', _) => c' == c <==> a' == a
  }

  predicate Unharmed(cfg: R.Config, s: System, key: string, c: nat, a: nat, steps: seq<Step>) {
    steps != [] ==>
      var before := steps[..|steps| - 1];
      && Unharmed(cfg, s, key, c, a, before)
      && Exec(cfg, s, before).Some? && Harmless(cfg, Exec(cfg, s, before).value, key, c, a, steps[|steps| - 1])
  }

  /** The replay has what it came for: a final payment found by its lookup, or the reply to its post. */
  predicate HasItsAnswer(v: Serving) {
    v.progress.Replied? || (v.progress.Looked? && Terminal(v.progress.lookup.payment.status))
  }

  /** Attempt a, posted for the stored request, is on its way to a final answer or has given it. */
  predicate OnCourse(r: R.Router, key: string, a: nat) {
    && key in r.table
    && if a in r.answers then r.answers[a].key == key && Terminal(r.answers[a].status)
       else
         && a in r.attempts && a !in r.dropped
         && r.attempts[a].key == key && r.attempts[a].req == r.table[key].req
         && (r.attempts[a].phase.Returned? ==> Terminal(r.attempts[a].phase.result.status))
  }

  /** How far a replay with nothing but sound steps behind it can be. */
  predicate Stage(r: R.Router, v: Serving, key: string, a: nat) {
    && key in r.table && v.key == key && v.errand.Refreshing?
    && match v.progress
       case Begun => R.Unused(r, a)
       case Looked(lookup) => R.Unused(r, a) && lookup.request == r.table[key].req
       case Posted(_, _, b) => b == a && OnCourse(r, key, a)
       case Replied(payment) => Terminal(payment.status)
  }

  predicate Underway(s: System, key: string, c: nat, a: nat) {
    key in s.operator.orders && c in s.operator.serving && Stage(s.router, s.operator.serving[c], key, a)
  }

  /** Reposting the stored request is taken for the stored payment, never for a conflict. */
  lemma RepostIsAccepted(cfg: R.Config, r: R.Router, key: string, routerNow: int)
    requires P.PayloadInv(r) && key in r.table
    ensures key != "" && ValidRouterRequest(Canon(r.table[key].req)) && r.table[key].req.instrument != ""
    ensures Decide(r.table, key, r.table[key].req, cfg.delay, routerNow)
         == if r.table[key].status.Pending? && routerNow - r.table[key].updatedAt >= cfg.delay then Claim else Replayed
  {
    assert GoodPayload(r.table[key]);
  }

  lemma ReplayIsAnswered(cfg: R.Config, r: R.Router, step: R.Step)
    requires step.Reserve? && R.Enabled(cfg, r, step) && step.outcome.Reported?
             && R.Decided(cfg, r, step.a, step.routerNow).Replayed?
    ensures r.attempts[step.a].key in r.table
    ensures R.Apply(cfg, r, step).answers
            == r.answers[step.a := View(r.attempts[step.a].key, r.table[r.attempts[step.a].key])]
  {
    hide Accepts, View;
  }

  lemma ClaimIsGranted(cfg: R.Config, r: R.Router, step: R.Step)
    requires step.Reserve? && R.Enabled(cfg, r, step) && step.outcome.Reported?
             && R.Decided(cfg, r, step.a, step.routerNow).Claim?
    ensures var r' := R.Apply(cfg, r, step);
            && r'.answers == r.answers && r'.dropped == r.dropped
            && step.a in r'.attempts && r'.attempts[step.a].phase.Charging?
            && r'.attempts[step.a].key == r.attempts[step.a].key && r'.attempts[step.a].req == r.attempts[step.a].req
  {
    hide Accepts, View;
  }

  /** The reservation either finds the payment finished and answers it, or claims it. */
  lemma ReserveStaysOnCourse(cfg: R.Config, r: R.Router, key: string, step: R.Step)
    requires P.PayloadInv(r) && R.Enabled(cfg, r, step) && step.Reserve?
    requires OnCourse(r, key, step.a) && step.a !in r.answers && Sound(cfg, r, key, step)
    requires Evolves(R.Apply(cfg, r, step).table, r.table)
    ensures OnCourse(R.Apply(cfg, r, step), key, step.a)
  {
    RepostIsAccepted(cfg, r, key, step.routerNow);
    hide P.PayloadInv, R.Enabled, R.Apply, Decide;
    if r.table[key].status.Pending? {
      ClaimIsGranted(cfg, r, step);
    } else {
      ReplayIsAnswered(cfg, r, step);
    }
  }

  lemma CallStaysOnCourse(cfg: R.Config, r: R.Router, key: string, step: R.Step)
    requires R.Enabled(cfg, r, step) && !step.Reserve? && !step.Persist?
    requires OnCourse(r, key, step.a) && step.a !in r.answers && Sound(cfg, r, key, step)
    ensures OnCourse(R.Apply(cfg, r, step), key, step.a)
  {
    hide Decide, R.ApplyReserve, R.ApplyPersist, ValidRouterRequest, Canon, CallProvider;
  }

  /** With its connection kept the attempt holds its lock, so its write matches exactly its row. */
  lemma PersistStaysOnCourse(cfg: R.Config, r: R.Router, key: string, step: R.Step)
    requires R.Inv(cfg, r) && R.Enabled(cfg, r, step) && step.Persist? && Sound(cfg, r, key, step)
    requires OnCourse(r, key, step.a)
    ensures OnCourse(R.Apply(cfg, r, step), key, step.a)
  {
    RouterTheorems.StepKeepsInv(cfg, r, step);
    assert R.AnswerOnce(r);
    RouterTheorems.OneAttemptAtATime(cfg, r, step.a, step.a);
    hide R.Inv, Affected, FencedWrite, CallProvider;
  }

  lemma AttemptStaysOnCourse(cfg: R.Config, r: R.Router, key: string, a: nat, step: R.Step)
    requires R.Inv(cfg, r) && P.PayloadInv(r) && OnCourse(r, key, a) && R.Enabled(cfg, r, step)
    requires step.a == a ==> Sound(cfg, r, key, step)
    ensures OnCourse(R.Apply(cfg, r, step), key, a)
  {
    RouterTheorems.StepKeepsInv(cfg, r, step);
    if step.a != a {
      RouterTheorems.OthersLeaveAttempt(cfg, r, a, step);
      hide R.Inv, P.PayloadInv, R.Enabled, R.Apply, Sound;
    } else {
      assert a !in r.answers by {
        hide R.Apply, ValidRouterRequest, Canon, Decide;
        assert R.AnswerOnce(r);
      }
      hide R.Inv, P.PayloadInv, R.Enabled, R.Apply, OnCourse, Sound;
      if step.Reserve? {
        ReserveStaysOnCourse(cfg, r, key, step);
      } else if step.Persist? {
        PersistStaysOnCourse(cfg, r, key, step);
      } else {
        CallStaysOnCourse(cfg, r, key, step);
      }
    }
  }

  /** A change of the router that keeps the attempt on course keeps the replay under way. */
  lemma RouterKeepsUnderway(s: System, s': System, key: string, c: nat, a: nat)
    requires Underway(s, key, c, a) && s'.operator == s.operator
    requires Evolves(s'.router.table, s.router.table)
    requires R.Unused(s.router, a) ==> R.Unused(s'.router, a)
    requires OnCourse(s.router, key, a) ==> OnCourse(s'.router, key, a)
    ensures Underway(s', key, c, a)
  {
    hide R.Unused, OnCourse;
  }

  lemma RouterStepKeepsUnderway(cfg: R.Config, s: System, key: string, c: nat, a: nat, r: R.Step)
    requires Good(cfg, s) && Enabled(cfg, s, RouterStep(r)) && Harmless(cfg, s, key, c, a, RouterStep(r))
    requires Underway(s, key, c, a)
    ensures Underway(Apply(cfg, s, RouterStep(r)), key, c, a)
  {
    StepIsGood(cfg, s, RouterStep(r));
    var s' := Apply(cfg, s, RouterStep(r));
    assert s' == s.(router := R.Apply(cfg, s.router, r)) && R.Enabled(cfg, s.router, r);
    assert R.Inv(cfg, s.router) && P.PayloadInv(s.router) && Evolves(s'.router.table, s.router.table);
    hide Good, Enabled, Apply, Grows;
    hide R.Inv, P.PayloadInv, Evolves, Underway, Stage;
    if R.Unused(s.router, a) {
      NotItsStep(cfg, s.router, key, a, r);
      RouterTheorems.OthersLeaveAttempt(cfg, s.router, a, r);
    }
    if OnCourse(s.router, key, a) {
      AttemptStaysOnCourse(cfg, s.router, key, a, r);
    }
    RouterKeepsUnderway(s, s', key, c, a);
  }

  /** An unused name takes no sound step. */
  lemma NotItsStep(cfg: R.Config, r: R.Router, key: string, a: nat, step: R.Step)
    requires R.Unused(r, a) && R.Enabled(cfg, r, step) && (step.a == a ==> Sound(cfg, r, key, step))
    ensures step.a != a
  {
    hide ValidRouterRequest, Canon, Decide, CallProvider;
  }

  lemma OthersKeepServing(s: System, o: OperatorStep, key: string, c: nat)
    requires OperatorEnabled(s, o) && o.c != c && c in s.operator.serving && key in s.operator.orders
    ensures var op := ApplyOperator(s, o); key in op.orders && c in op.serving && op.serving[c] == s.operator.serving[c]
  {
  }

  /** The lookup finds the one row with the order's id. */
  lemma LookupFindsTheRow(s: System, key: string, c: nat, rowKey: string)
    requires NeverAhead(s) && UniqueIds(s.router.table) && OperatorEnabled(s, Fetch(c, rowKey))
    requires s.operator.serving[c].errand.Refreshing? && s.operator.serving[c].key == key
    ensures rowKey == key
  {
    assert OrderAgrees(s.router.table, key, s.operator.serving[c].errand.order);
  }

  lemma FetchKeepsUnderway(s: System, key: string, c: nat, a: nat, rowKey: string)
    requires NeverAhead(s) && UniqueIds(s.router.table) && OperatorEnabled(s, Fetch(c, rowKey))
             && Underway(s, key, c, a)
    ensures Underway(s.(operator := ApplyOperator(s, Fetch(c, rowKey))), key, c, a)
  {
    LookupFindsTheRow(s, key, c, rowKey);
    hide NeverAhead, UniqueIds, R.Unused, View;
  }

  lemma HearKeepsUnderway(s: System, key: string, c: nat, a: nat)
    requires OperatorEnabled(s, Hear(c)) && Underway(s, key, c, a)
    ensures Underway(s.(operator := ApplyOperator(s, Hear(c))), key, c, a)
  {
    hide R.Unused;
  }

  lemma OperatorStepKeepsUnderway(cfg: R.Config, s: System, key: string, c: nat, a: nat, o: OperatorStep)
    requires Good(cfg, s) && OperatorEnabled(s, o) && (o.c == c ==> o.Fetch? || o.Hear?)
    requires Underway(s, key, c, a)
    ensures Underway(s.(operator := ApplyOperator(s, o)), key, c, a)
  {
    AnswersAreRows(cfg, s);
    IdsAreUnique(cfg, s);
    hide Good, NeverAhead, UniqueIds, Stage, OperatorEnabled, ApplyOperator;
    if o.c != c {
      OthersKeepServing(s, o, key, c);
    } else if o.Fetch? {
      FetchKeepsUnderway(s, key, c, a, o.rowKey);
    } else {
      HearKeepsUnderway(s, key, c, a);
    }
  }

  lemma OwnPostKeepsUnderway(s: System, s': System, key: string, c: nat, a: nat, req: RouterPaymentRequest)
    requires Underway(s, key, c, a) && MayPost(s.operator.serving[c], req) && R.Unused(s.router, a)
    requires s'.router == s.router.(attempts := s.router.attempts[a := R.Attempt(key, req, R.Queued)])
    requires var v := s.operator.serving[c];
             s'.operator == WithServing(s.operator, c, v.(progress := Posted(Got(v.progress), req, a)))
    ensures Underway(s', key, c, a)
  {
  }

  lemma OthersPostKeepsUnderway(s: System, s': System, key: string, c: nat, a: nat, c': nat, v: Serving)
    requires Underway(s, key, c, a) && c' != c && s'.operator == WithServing(s.operator, c', v)
    requires s'.router.table == s.router.table && RouterTheorems.SameAttempt(s.router, s'.router, a)
    ensures Underway(s', key, c, a)
  {
  }

  lemma PostKeepsUnderway(cfg: R.Config, s: System, key: string, c: nat, a: nat, c': nat, a': nat,
                          req: RouterPaymentRequest)
    requires Enabled(cfg, s, Post(c', a', req)) && (c' == c <==> a' == a)
    requires Underway(s, key, c, a)
    ensures Underway(Apply(cfg, s, Post(c', a', req)), key, c, a)
  {
    var v := s.operator.serving[c'];
    assert R.Unused(s.router, a') && MayPost(v, req);
    assert v.key == key || c' != c;
    var s' := Apply(cfg, s, Post(c', a', req));
    assert s'.router == s.router.(attempts := s.router.attempts[a' := R.Attempt(v.key, req, R.Queued)]);
    assert s'.operator == WithServing(s.operator, c', v.(progress := Posted(Got(v.progress), req, a')));
    hide Enabled, Apply, Stage, MayPost, R.Enabled, R.Apply;
    if c' == c {
      OwnPostKeepsUnderway(s, s', key, c, a, req);
    } else {
      OthersPostKeepsUnderway(s, s', key, c, a, c', v.(progress := Posted(Got(v.progress), req, a')));
    }
  }

  lemma GatewayStepKeepsUnderway(cfg: R.Config, s: System, key: string, c: nat, a: nat, g: GatewayName, l: L.Step)
    requires Enabled(cfg, s, GatewayStep(g, l)) && Underway(s, key, c, a)
    ensures Underway(Apply(cfg, s, GatewayStep(g, l)), key, c, a)
  {
    hide Stage, L.Enabled, L.Apply;
  }

  lemma StepKeepsUnderway(cfg: R.Config, s: System, key: string, c: nat, a: nat, step: Step)
    requires Good(cfg, s) && Enabled(cfg, s, step) && Harmless(cfg, s, key, c, a, step) && Underway(s, key, c, a)
    ensures Underway(Apply(cfg, s, step), key, c, a)
  {
    hide Good, Underway;
    match step
    case RouterStep(r) => RouterStepKeepsUnderway(cfg, s, key, c, a, r);
    case GatewayStep(g, l) => GatewayStepKeepsUnderway(cfg, s, key, c, a, g, l);
    case OperatorStep(o) => OperatorStepKeepsUnderway(cfg, s, key, c, a, o);
    case Post(c', a', req) => PostKeepsUnderway(cfg, s, key, c, a, c', a', req);
  }

  lemma {:induction false} UnharmedKeepsUnderway(cfg: R.Config, s: System, key: string, c: nat, a: nat,
                                                 steps: seq<Step>)
    requires Good(cfg, s) && Underway(s, key, c, a)
    requires Unharmed(cfg, s, key, c, a, steps) && Exec(cfg, s, steps).Some?
    ensures Good(cfg, Exec(cfg, s, steps).value) && Underway(Exec(cfg, s, steps).value, key, c, a)
  {
    hide Good, Underway, Enabled, Apply, Harmless;
    if steps != [] {
      var before := steps[..|steps| - 1];
      UnharmedKeepsUnderway(cfg, s, key, c, a, before);
      var m := Exec(cfg, s, before).value;
      StepIsGood(cfg, m, steps[|steps| - 1]);
      StepKeepsUnderway(cfg, m, key, c, a, steps[|steps| - 1]);
    }
  }

  function BeginReplay(s: System, key: string, c: nat): Step
    requires key in s.operator.orders
  {
    OperatorStep(BeginPost(c, key, s.operator.orders[key].request))
  }

  lemma ReplayBegins(cfg: R.Config, s: System, key: string, c: nat) returns (begun: System)
    requires key in s.operator.orders && s.operator.orders[key].status.Pending? && c !in s.operator.serving
    ensures Exec(cfg, s, [BeginReplay(s, key, c)]) == Some(begun)
    ensures begun == s.(operator := WithServing(s.operator, c, Serving(Refreshing(s.operator.orders[key]), key, Begun)))
  {
    hide R.Enabled, R.Apply, L.Enabled, L.Apply;
    assert Exec(cfg, s, []) == Some(s);
    Then(cfg, s, [], s, BeginReplay(s, key, c));
    assert [] + [BeginReplay(s, key, c)] == [BeginReplay(s, key, c)];
    begun := Apply(cfg, s, BeginReplay(s, key, c));
  }

  /** The router's row is final; the order has just been written from it and the client has been told
      it. */
  predicate Concluded(orders: map<string, Order>, s': System, key: string) {
    && key in s'.router.table && key in orders
    && var payment := View(key, s'.router.table[key]);
    && Terminal(payment.status)
    && s'.operator.orders == orders[key := Refreshed(orders[key], payment)]
    && FromRouter(key, payment) in s'.operator.replies
  }

  lemma ReplayFinishes(cfg: R.Config, s: System, steps: seq<Step>, m: System, key: string, c: nat) returns (s': System)
    requires Exec(cfg, s, steps) == Some(m) && NeverAhead(m) && key in m.operator.orders
    requires c in m.operator.serving && m.operator.serving[c].key == key && m.operator.serving[c].errand.Refreshing?
    requires Got(m.operator.serving[c].progress).Some? && Terminal(Got(m.operator.serving[c].progress).value.status)
    ensures Exec(cfg, s, steps + [OperatorStep(Finish(c, R.Reported))]) == Some(s')
    ensures s' == m.(operator := s'.operator) && Concluded(m.operator.orders, s', key)
  {
    assert ServingAgrees(m.router.table, m.operator.serving[c]);
    assert Got(m.operator.serving[c].progress).value == View(key, m.router.table[key]);
    hide R.Enabled, R.Apply, L.Enabled, L.Apply, NeverAhead;
    Then(cfg, s, steps, m, OperatorStep(Finish(c, R.Reported)));
    s' := Apply(cfg, m, OperatorStep(Finish(c, R.Reported)));
  }

  /** Recovery, over every schedule. A client replays a pending order from any reachable state. All
      other requests, replicas and gateways may do, lose, duplicate and crash whatever they like while
      the replay runs; if its own steps suffer no fault and it gets its answer, then the row is final,
      order and reply say what the row says, the gateway stands behind the row unless a 4xx made it
      FAILED, and a decision the gateway had taken before is the one still on its disk. */
  lemma EveryUnharmedReplayConcludes(cfg: R.Config, s: System, key: string, c: nat, a: nat, begun: System,
                                     steps: seq<Step>, m: System)
    returns (s': System)
    requires Reachable(cfg, s) && key in s.operator.orders && s.operator.orders[key].status.Pending?
    requires c !in s.operator.serving && R.Unused(s.router, a)
    requires Exec(cfg, s, [BeginReplay(s, key, c)]) == Some(begun)
    requires Unharmed(cfg, begun, key, c, a, steps) && Exec(cfg, begun, steps) == Some(m)
    requires c in m.operator.serving && HasItsAnswer(m.operator.serving[c])
    ensures Exec(cfg, s, [BeginReplay(s, key, c)] + steps + [OperatorStep(Finish(c, R.Reported))]) == Some(s')
    ensures s' == m.(operator := s'.operator) && Concluded(m.operator.orders, s', key)
    ensures var row := s'.router.table[key];
            && Backed(Gateway(s', row.gateway).disk, row.gateway, key, RowResult(row))
            && (key in L.Results(Gateway(s, row.gateway).disk, row.gateway) ==>
                  key in L.Results(Gateway(s', row.gateway).disk, row.gateway)
                  && L.Results(Gateway(s', row.gateway).disk, row.gateway)[key]
                     == L.Results(Gateway(s, row.gateway).disk, row.gateway)[key])
  {
    hide Reachable, Good, Unharmed, Underway, Stage, R.Unused, Harmless, Enabled, Apply, Backed;
    var b := ReplayBegins(cfg, s, key, c);
    ReachableIsGood(cfg, s);
    ExecIsGood(cfg, s, [BeginReplay(s, key, c)]);
    ReplayIsUnderway(cfg, s, key, c, a);
    UnharmedKeepsUnderway(cfg, begun, key, c, a, steps);
    UnderwayFacts(m, key, c, a);
    AnswersAreRows(cfg, m);
    ThenAll(cfg, s, [BeginReplay(s, key, c)], steps);
    s' := ReplayFinishes(cfg, s, [BeginReplay(s, key, c)] + steps, m, key, c);
    ExecIsGood(cfg, s, [BeginReplay(s, key, c)] + steps + [OperatorStep(Finish(c, R.Reported))]);
    RowIsBacked(cfg, s', key);
  }

  lemma ReplayIsUnderway(cfg: R.Config, s: System, key: string, c: nat, a: nat)
    requires Good(cfg, s) && key in s.operator.orders && R.Unused(s.router, a)
    ensures Underway(s.(operator := WithServing(s.operator, c,
            Serving(Refreshing(s.operator.orders[key]), key, Begun))), key, c, a)
  {
    hide Good, NeverAhead, R.Unused;
    AnswersAreRows(cfg, s);
    OrderHasItsRow(s, key);
  }

  lemma OrderHasItsRow(s: System, key: string)
    requires NeverAhead(s) && key in s.operator.orders
    ensures key in s.router.table
  {
    assert OrderAgrees(s.router.table, key, s.operator.orders[key]);
  }

  lemma UnderwayFacts(s: System, key: string, c: nat, a: nat)
    requires Underway(s, key, c, a) && HasItsAnswer(s.operator.serving[c])
    ensures key in s.operator.orders && s.operator.serving[c].key == key && s.operator.serving[c].errand.Refreshing?
    ensures Got(s.operator.serving[c].progress).Some? && Terminal(Got(s.operator.serving[c].progress).value.status)
  {
  }

  lemma RowIsBacked(cfg: R.Config, s: System, key: string)
    requires Good(cfg, s) && key in s.router.table
    ensures var row := s.router.table[key]; Backed(Gateway(s, row.gateway).disk, row.gateway, key, RowResult(row))
  {
    assert RowsBacked(s);
  }

  /******* The schedule of an undisturbed replay *******/

  /** A stale pending payment, with the lock free. */
  ghost predicate Recoverable(cfg: R.Config, s: System, key: string, now: int, routerNow: int) {
    && key in s.operator.orders && s.operator.orders[key].status.Pending?
    && key in s.router.table && s.router.table[key].status.Pending?
    && cfg.lockOf(key) !in s.router.locks
    && s.router.clock < now && routerNow <= now + cfg.skew
    && routerNow - s.router.table[key].updatedAt >= cfg.delay
  }

  /** Names no request has. */
  predicate FreshNames(s: System, key: string, c: nat, a: nat, h: nat)
    requires key in s.router.table
  {
    c !in s.operator.serving && R.Unused(s.router, a) && h !in Gateway(s, s.router.table[key].gateway).handlers
  }

  /** One public replay and nothing else. Between its beginning and its end: look up, repost the
      frozen request, lock, claim, call, decide, record, answer, hear. */
  function ReplayMiddle(s: System, key: string, c: nat, a: nat, h: nat, now: int, routerNow: int, approve: bool,
                        stamp: string): seq<Step>
    requires key in s.router.table
  {
    var row := s.router.table[key];
    var p := Gateway(s, row.gateway);
    [OperatorStep(Fetch(c, key))]
    + [Post(c, a, row.req)]
    + CallSchedule(a, now, routerNow, "")
    + GatewaySchedule(p, row.gateway, h, key, approve, stamp)
    + SettleSchedule(a, L.Encode(row.gateway, Decided(p, row.gateway, key, approve, stamp)), now + 1)
    + [OperatorStep(Hear(c))]
  }

  function ReplaySchedule(s: System, key: string, c: nat, a: nat, h: nat, now: int, routerNow: int, approve: bool,
                          stamp: string): seq<Step>
    requires key in s.operator.orders && key in s.router.table
  {
    [BeginReplay(s, key, c)] + ReplayMiddle(s, key, c, a, h, now, routerNow, approve, stamp)
        + [OperatorStep(Finish(c, R.Reported))]
  }

  /******* Unharmed schedules, piece by piece *******/

  lemma UnharmedAlso(cfg: R.Config, s: System, key: string, c: nat, a: nat, steps: seq<Step>, m: System, step: Step)
    requires Unharmed(cfg, s, key, c, a, steps) && Exec(cfg, s, steps) == Some(m) && Harmless(cfg, m, key, c, a, step)
    ensures Unharmed(cfg, s, key, c, a, steps + [step])
  {
    hide Harmless, Exec;
    assert (steps + [step])[..|steps + [step]| - 1] == steps;
  }

  lemma {:induction false} UnharmedThen(cfg: R.Config, s: System, key: string, c: nat, a: nat, xs: seq<Step>,
                                        m: System, ys: seq<Step>)
    requires Unharmed(cfg, s, key, c, a, xs) && Exec(cfg, s, xs) == Some(m) && Unharmed(cfg, m, key, c, a, ys)
    ensures Unharmed(cfg, s, key, c, a, xs + ys)
  {
    hide Harmless, Exec;
    if ys == [] {
      assert xs + ys == xs;
    } else {
      var before := ys[..|ys| - 1];
      UnharmedThen(cfg, s, key, c, a, xs, m, before);
      ThenAll(cfg, s, xs, before);
      UnharmedAlso(cfg, s, key, c, a, xs + before, Exec(cfg, m, before).value, ys[|ys| - 1]);
      assert xs + before + [ys[|ys| - 1]] == xs + ys;
    }
  }

  lemma {:induction false} GatewaysHarmNobody(cfg: R.Config, s: System, key: string, c: nat, a: nat, steps: seq<Step>)
    requires Exec(cfg, s, steps).Some? && forall i :: 0 <= i < |steps| ==> steps[i].GatewayStep?
    ensures Unharmed(cfg, s, key, c, a, steps)
  {
    hide Enabled, Apply;
    if steps != [] {
      GatewaysHarmNobody(cfg, s, key, c, a, steps[..|steps| - 1]);
    }
  }

  lemma CallIsUnharmed(cfg: R.Config, m: System, key: string, c: nat, a: nat, now: int, routerNow: int, m': System)
    requires a in m.router.attempts && m.router.attempts[a] == R.Attempt(key, m.router.attempts[a].req, R.Queued)
    requires cfg.lockOf(key) !in m.router.locks && key in m.router.table
    requires routerNow - m.router.table[key].updatedAt >= cfg.delay
    requires Exec(cfg, m, CallSchedule(a, now, routerNow, "")) == Some(m')
    ensures Unharmed(cfg, m, key, c, a, CallSchedule(a, now, routerNow, ""))
  {
    var m1 := LockIsTaken(cfg, m, a, key, m.router.attempts[a].req);
    var steps := CallSchedule(a, now, routerNow, "");
    hide Enabled, Apply;
    assert steps[..2] == [steps[0]] + [steps[1]] && steps == steps[..2] + [steps[2]];
    assert Unharmed(cfg, m, key, c, a, []) && Exec(cfg, m, []) == Some(m) && [] + [steps[0]] == [steps[0]];
    assert Exec(cfg, m, steps[..2]).Some? by { assert steps[..|steps| - 1] == steps[..2]; }
    UnharmedAlso(cfg, m, key, c, a, [], m, steps[0]);
    UnharmedAlso(cfg, m, key, c, a, [steps[0]], m1, steps[1]);
    UnharmedAlso(cfg, m, key, c, a, steps[..2], Exec(cfg, m, steps[..2]).value, steps[2]);
  }

  lemma SettleIsUnharmed(cfg: R.Config, m: System, key: string, c: nat, a: nat, answer: Answer, now: int, m': System)
    requires a in m.router.attempts && m.router.attempts[a].phase.Calling?
    requires Terminal(CallProvider(m.router.attempts[a].phase.ticket.gateway, answer).status)
    requires Exec(cfg, m, SettleSchedule(a, answer, now)) == Some(m')
    ensures Unharmed(cfg, m, key, c, a, SettleSchedule(a, answer, now))
  {
    var steps := SettleSchedule(a, answer, now);
    hide Enabled, Apply, CallProvider;
    assert steps == [steps[0]] + [steps[1]] && steps[..|steps| - 1] == [steps[0]] && [] + [steps[0]] == [steps[0]];
    assert Unharmed(cfg, m, key, c, a, []) && Exec(cfg, m, []) == Some(m);
    UnharmedAlso(cfg, m, key, c, a, [], m, steps[0]);
    UnharmedAlso(cfg, m, key, c, a, [steps[0]], Exec(cfg, m, [steps[0]]).value, steps[1]);
  }

  /******* Recovery makes progress *******/

  lemma RecoveryFacts(cfg: R.Config, s: System, key: string)
    requires Reachable(cfg, s) && key in s.operator.orders
    ensures key in s.router.table && s.router.table[key].id == s.operator.orders[key].id
    ensures UniqueIds(s.router.table) && P.PayloadInv(s.router)
    ensures L.DiskInStep(s.card) && L.DiskInStep(s.bank)
  {
    hide Reachable, P.PayloadInv, P.CallsKnown;
    OrdersNeverAhead(cfg, s, key);
    RouterIsGood(cfg, s);
    SlotsAreRouted(cfg, s);
  }

  lemma PaymentIsFound(cfg: R.Config, s: System, key: string, c: nat, a: nat) returns (m: System)
    requires c in s.operator.serving && s.operator.serving[c].errand.Refreshing?
             && s.operator.serving[c].progress.Begun?
    requires key in s.router.table && s.router.table[key].id == s.operator.serving[c].errand.order.id
    ensures Exec(cfg, s, [OperatorStep(Fetch(c, key))]) == Some(m)
            && Unharmed(cfg, s, key, c, a, [OperatorStep(Fetch(c, key))])
    ensures m == s.(operator := WithServing(s.operator, c,
            s.operator.serving[c].(progress := Looked(LookupOf(key, s.router.table[key])))))
  {
    hide R.Enabled, R.Apply, L.Enabled, L.Apply;
    var fetch := OperatorStep(Fetch(c, key));
    assert Exec(cfg, s, []) == Some(s) && Unharmed(cfg, s, key, c, a, []) && [] + [fetch] == [fetch];
    Then(cfg, s, [], s, fetch);
    UnharmedAlso(cfg, s, key, c, a, [], s, fetch);
    m := Apply(cfg, s, fetch);
  }

  /** The attempt the replay starts carries exactly the stored request. */
  lemma PaymentIsReposted(cfg: R.Config, s: System, steps: seq<Step>, m: System, key: string, c: nat, a: nat)
    returns (m': System)
    requires Exec(cfg, s, steps) == Some(m) && Unharmed(cfg, s, key, c, a, steps)
    requires key in m.router.table && m.router.table[key].status.Pending? && P.PayloadInv(m.router)
             && R.Unused(m.router, a)
    requires c in m.operator.serving && m.operator.serving[c].key == key && m.operator.serving[c].errand.Refreshing?
    requires m.operator.serving[c].progress == Looked(LookupOf(key, m.router.table[key]))
    ensures var req, v := m.router.table[key].req, m.operator.serving[c];
            && Exec(cfg, s, steps + [Post(c, a, req)]) == Some(m')
               && Unharmed(cfg, s, key, c, a, steps + [Post(c, a, req)])
            && m' == m.(router := m.router.(attempts := m.router.attempts[a := R.Attempt(key, req, R.Queued)]),
                        operator := WithServing(m.operator, c, v.(progress := Posted(Got(v.progress), req, a))))
  {
    var req := m.router.table[key].req;
    hide P.PayloadInv, R.Unused, Decide, ValidRouterRequest, Canon, Exec, Unharmed;
    RepostIsAccepted(cfg, m.router, key, 0);
    UnharmedAlso(cfg, s, key, c, a, steps, m, Post(c, a, req));
    m' := PostIsSent(cfg, s, steps, m, c, a, req);
  }

  lemma PostIsSent(cfg: R.Config, s: System, steps: seq<Step>, m: System, c: nat, a: nat, req: RouterPaymentRequest)
    returns (m': System)
    requires Exec(cfg, s, steps) == Some(m) && c in m.operator.serving && MayPost(m.operator.serving[c], req)
    requires R.Unused(m.router, a) && m.operator.serving[c].key != "" && ValidRouterRequest(Canon(req))
    ensures Exec(cfg, s, steps + [Post(c, a, req)]) == Some(m')
    ensures var v := m.operator.serving[c];
            m' == m.(router := m.router.(attempts := m.router.attempts[a := R.Attempt(v.key, req, R.Queued)]),
                     operator := WithServing(m.operator, c, v.(progress := Posted(Got(v.progress), req, a))))
  {
    hide MayPost, ValidRouterRequest, Canon, R.Unused;
    Then(cfg, s, steps, m, Post(c, a, req));
    m' := Apply(cfg, m, Post(c, a, req));
  }

  /** Claim, call, decide, record: the services' part of a recovery. */
  lemma RepostSettles(cfg: R.Config, s: System, before: seq<Step>, m: System, key: string, c: nat, a: nat, h: nat,
                      now: int, routerNow: int, approve: bool, stamp: string)
    returns (m': System)
    requires Exec(cfg, s, before) == Some(m) && Unharmed(cfg, s, key, c, a, before)
    requires key in m.router.table && m.router.table[key].status.Pending? && cfg.lockOf(key) !in m.router.locks
    requires a in m.router.attempts && m.router.attempts[a] == R.Attempt(key, m.router.table[key].req, R.Queued)
    requires m.router.clock < now && routerNow <= now + cfg.skew && UniqueIds(m.router.table) && key != ""
    requires Decide(m.router.table, key, m.router.table[key].req, cfg.delay, routerNow).Claim?
    requires var p := Gateway(m, m.router.table[key].gateway); p.storing.None? && L.DiskInStep(p) && h !in p.handlers
    ensures var row := m.router.table[key];
            var e := Decided(Gateway(m, row.gateway), row.gateway, key, approve, stamp);
            var steps := before + CallSchedule(a, now, routerNow, "")
                         + GatewaySchedule(Gateway(m, row.gateway), row.gateway, h, key, approve, stamp)
                         + SettleSchedule(a, L.Encode(row.gateway, e), now + 1);
            && Exec(cfg, s, steps) == Some(m') && Unharmed(cfg, s, key, c, a, steps)
            && key in L.Results(Gateway(m', row.gateway).disk, row.gateway)
            && L.Results(Gateway(m', row.gateway).disk, row.gateway)[key] == e
            && m'.router.table == m.router.table[key := Finished(row, L.Outcome(row.gateway, e), now + 1)]
            && a in m'.router.answers && m'.router.answers[a] == View(key, m'.router.table[key])
            && Terminal(m'.router.answers[a].status) && m'.operator == m.operator
  {
    hide R.Enabled, R.Apply, L.Enabled, L.Apply, Heard, CallProvider, L.DiskInStep, L.Outcome, L.Encode, L.NewEntry;
    hide Enabled, Apply, Accepts;
    hide CallSchedule, SettleSchedule, Exec, Unharmed;
    var g := m.router.table[key].gateway;
    var e := Decided(Gateway(m, g), g, key, approve, stamp);
    var call, decide, settle := CallSchedule(a, now, routerNow, ""),
        GatewaySchedule(Gateway(m, g), g, h, key, approve, stamp),
      SettleSchedule(a, L.Encode(g, e), now + 1);
    var m1 := CallIsSent(cfg, m, a, key, m.router.table[key].req, now, routerNow, "");
    CallIsUnharmed(cfg, m, key, c, a, now, routerNow, m1);
    var m2 := GatewayAnswers(cfg, m1, g, h, key, approve, stamp);
    GatewaysHarmNobody(cfg, m1, key, c, a, decide);
    HeardFromReply(m2, g, key, e);
    m' := AnswerIsRecorded(cfg, m2, a, L.Encode(g, e), now + 1);
    OutcomeIsTerminal(m.router.table[key], e, now + 1);
    SettleIsUnharmed(cfg, m2, key, c, a, L.Encode(g, e), now + 1, m');
    hide GatewaySchedule;
    ThenAll(cfg, s, before, call);
    UnharmedThen(cfg, s, key, c, a, before, m, call);
    ThenAll(cfg, s, before + call, decide);
    UnharmedThen(cfg, s, key, c, a, before + call, m1, decide);
    ThenAll(cfg, s, before + call + decide, settle);
    UnharmedThen(cfg, s, key, c, a, before + call + decide, m2, settle);
  }

  lemma OutcomeIsTerminal(row: Row, e: L.Entry, now: int)
    ensures Terminal(L.Outcome(row.gateway, e).status) && Terminal(Finished(row, L.Outcome(row.gateway, e), now).status)
  {
  }

  lemma ReplyIsHeard(cfg: R.Config, s: System, steps: seq<Step>, m: System, key: string, c: nat, a: nat)
    returns (m': System)
    requires Exec(cfg, s, steps) == Some(m) && Unharmed(cfg, s, key, c, a, steps)
    requires c in m.operator.serving && m.operator.serving[c].progress.Posted? && m.operator.serving[c].progress.a == a
    requires a in m.router.answers && m.router.answers[a].key == m.operator.serving[c].key
    ensures Exec(cfg, s, steps + [OperatorStep(Hear(c))]) == Some(m')
            && Unharmed(cfg, s, key, c, a, steps + [OperatorStep(Hear(c))])
    ensures m' == m.(operator := WithServing(m.operator, c,
            m.operator.serving[c].(progress := Replied(m.router.answers[a]))))
  {
    UnharmedAlso(cfg, s, key, c, a, steps, m, OperatorStep(Hear(c)));
    hide R.Enabled, R.Apply, L.Enabled, L.Apply, Unharmed;
    Then(cfg, s, steps, m, OperatorStep(Hear(c)));
    m' := Apply(cfg, m, OperatorStep(Hear(c)));
  }

  /** A request that holds the gateway's mutex finishes its write. */
  function FreeMutex(p: L.Process, g: GatewayName): seq<Step> {
    if p.storing.Some? then [GatewayStep(g, L.Stored)] else []
  }

  lemma MutexIsFreed(cfg: R.Config, s: System, g: GatewayName) returns (m: System)
    requires Reachable(cfg, s)
    ensures Exec(cfg, s, FreeMutex(Gateway(s, g), g)) == Some(m) && m == WithGateway(s, g, Gateway(m, g))
    ensures Gateway(m, g).storing.None? && Gateway(m, g).mem == Gateway(s, g).mem
    ensures Gateway(m, g).handlers.Keys <= Gateway(s, g).handlers.Keys
  {
    hide Reachable, R.Enabled, R.Apply;
    SlotsAreRouted(cfg, s);
    m := s;
    assert Exec(cfg, s, []) == Some(s);
    if Gateway(s, g).storing.Some? {
      m := GatewayThen(cfg, s, [], s, g, L.Stored);
      assert [] + [GatewayStep(g, L.Stored)] == [GatewayStep(g, L.Stored)];
    }
  }

  /** Recovery makes progress: from any reachable state with a stale pending payment this schedule
      runs to its end, and drives row, order and reply to one result, the gateway's recorded decision
      if it had one and otherwise the one it takes now. */
  lemma ReplayRecovers(cfg: R.Config, s: System, key: string, c: nat, a: nat, h: nat, now: int, routerNow: int,
                       approve: bool, stamp: string)
    returns (s': System)
    requires Reachable(cfg, s) && Recoverable(cfg, s, key, now, routerNow) && FreshNames(s, key, c, a, h)
    ensures var g := s.router.table[key].gateway;
            Exec(cfg, s, FreeMutex(Gateway(s, g), g)
                + ReplaySchedule(s, key, c, a, h, now, routerNow, approve, stamp)) == Some(s')
    ensures Concluded(s.operator.orders, s', key)
    ensures var row := s.router.table[key];
            var e := Decided(Gateway(s, row.gateway), row.gateway, key, approve, stamp);
            && key in L.Results(Gateway(s', row.gateway).disk, row.gateway)
            && L.Results(Gateway(s', row.gateway).disk, row.gateway)[key] == e
            && s'.router.table == s.router.table[key := Finished(row, L.Outcome(row.gateway, e), now + 1)]
  {
    hide Reachable, Concluded, Exec, FreeMutex, Finished, L.Outcome, L.NewEntry, CallSchedule, SettleSchedule;
    var g := s.router.table[key].gateway;
    var m := MutexIsFreed(cfg, s, g);
    ReachableThen(cfg, s, FreeMutex(Gateway(s, g), g), m);
    s' := FreeGatewayRecovers(cfg, m, key, c, a, h, now, routerNow, approve, stamp);
    SameSchedule(s, m, key, c, a, h, now, routerNow, approve, stamp);
    hide ReplaySchedule;
    ThenAll(cfg, s, FreeMutex(Gateway(s, g), g), ReplaySchedule(s, key, c, a, h, now, routerNow, approve, stamp));
  }

  lemma SameSchedule(s: System, m: System, key: string, c: nat, a: nat, h: nat, now: int, routerNow: int,
                     approve: bool, stamp: string)
    requires key in s.router.table && key in s.operator.orders && m.router == s.router && m.operator == s.operator
    requires Gateway(m, s.router.table[key].gateway).mem == Gateway(s, s.router.table[key].gateway).mem
    ensures ReplaySchedule(m, key, c, a, h, now, routerNow, approve, stamp)
         == ReplaySchedule(s, key, c, a, h, now, routerNow, approve, stamp)
  {
  }

  /** The recovery itself, once the gateway's mutex is free. */
  lemma FreeGatewayRecovers(cfg: R.Config, s: System, key: string, c: nat, a: nat, h: nat, now: int, routerNow: int,
                            approve: bool, stamp: string)
    returns (s': System)
    requires Reachable(cfg, s) && Recoverable(cfg, s, key, now, routerNow) && FreshNames(s, key, c, a, h)
    requires Gateway(s, s.router.table[key].gateway).storing.None?
    ensures Exec(cfg, s, ReplaySchedule(s, key, c, a, h, now, routerNow, approve, stamp)) == Some(s')
    ensures Concluded(s.operator.orders, s', key)
    ensures var row := s.router.table[key];
            var e := Decided(Gateway(s, row.gateway), row.gateway, key, approve, stamp);
            && key in L.Results(Gateway(s', row.gateway).disk, row.gateway)
            && L.Results(Gateway(s', row.gateway).disk, row.gateway)[key] == e
            && s'.router.table == s.router.table[key := Finished(row, L.Outcome(row.gateway, e), now + 1)]
  {
    hide Reachable, P.PayloadInv, L.DiskInStep, L.Outcome, L.Encode, Decide, Decided, Finished, R.Unused, Concluded;
    hide Exec, Unharmed;
    hide CallSchedule, GatewaySchedule, SettleSchedule, Backed;
    RecoveryFacts(cfg, s, key);
    RepostIsAccepted(cfg, s.router, key, routerNow);
    var begun := ReplayBegins(cfg, s, key, c);
    var m := PaymentIsFound(cfg, begun, key, c, a);
    m := PaymentIsReposted(cfg, begun, [OperatorStep(Fetch(c, key))], m, key, c, a);
    var posted := [OperatorStep(Fetch(c, key))] + [Post(c, a, s.router.table[key].req)];
    hide Accepts;
    m := RepostSettles(cfg, begun, posted, m, key, c, a, h, now, routerNow, approve, stamp);
    var g := s.router.table[key].gateway;
    var settled := posted + CallSchedule(a, now, routerNow, "")
        + GatewaySchedule(Gateway(s, g), g, h, key, approve, stamp)
      + SettleSchedule(a, L.Encode(g, Decided(Gateway(s, g), g, key, approve, stamp)), now + 1);
    m := ReplyIsHeard(cfg, begun, settled, m, key, c, a);
    s' := EveryUnharmedReplayConcludes(cfg, s, key, c, a, begun, settled + [OperatorStep(Hear(c))], m);
  }

  /** A pending order whose payment has meanwhile finished catches up on its next replay: it looks the
      payment up and posts nothing. */
  lemma ReplayCatchesUp(cfg: R.Config, s: System, key: string, c: nat) returns (s': System)
    requires Reachable(cfg, s) && key in s.operator.orders && s.operator.orders[key].status.Pending?
    requires key in s.router.table && Terminal(s.router.table[key].status) && c !in s.operator.serving
    ensures Exec(cfg, s, [BeginReplay(s, key, c)] + [OperatorStep(Fetch(c, key))]
            + [OperatorStep(Finish(c, R.Reported))]) == Some(s')
    ensures Concluded(s.operator.orders, s', key) && s'.router == s.router
  {
    hide Reachable, P.PayloadInv, L.DiskInStep, Enabled, Apply, Concluded, Exec, Unharmed, Backed;
    RecoveryFacts(cfg, s, key);
    var a := UnusedName(s.router);
    hide R.Unused;
    var begun := ReplayBegins(cfg, s, key, c);
    var m := PaymentIsFound(cfg, begun, key, c, a);
    s' := EveryUnharmedReplayConcludes(cfg, s, key, c, a, begun, [OperatorStep(Fetch(c, key))], m);
  }

  /** There is always an unused name. */
  lemma UnusedName(r: R.Router) returns (a: nat)
    ensures R.Unused(r, a)
  {
    a := AboveAll(r.attempts.Keys + r.dropped + r.answers.Keys);
  }

  lemma {:induction false} AboveAll(names: set<nat>) returns (a: nat)
    ensures forall n :: n in names ==> n < a
    decreases names
  {
    if names == {} {
      a := 0;
    } else {
      var n :| n in names;
      var rest := AboveAll(names - {n});
      a := if rest > n then rest else n + 1;
      assert forall k :: k in names ==> k == n || k in names - {n};
    }
  }
}
