/** Every order is for the payment that was asked for: the public request cached by the operator and
    the request stored by the router agree in parties, amount, currency and reference, in every state
    of every run. (cmd/payment-operator/main.go:174-199; cmd/payment-router/main.go:118-136, 178-208) */
module OrderPayments {
  import opened Payments
  import opened PaymentsTable
  import opened PaymentSystem
  import R = RouterMachine
  import P = RouterPayload
  import L = LedgerMachine
  import RouterProofs
  import RouterTheorems
  import opened Guarantees

  /** Attempt a was started with this request, and if it has answered, the row holds the same one. */
  predicate PostedAs(r: R.Router, a: nat, key: string, sent: RouterPaymentRequest) {
    && !R.Unused(r, a)
    && (a in r.attempts ==> r.attempts[a].key == key && r.attempts[a].req == sent)
    && (a in r.answers ==> key in r.table && StoredAsSent(r.table[key].req, sent))
  }

  predicate ServesItsRequest(r: R.Router, v: Serving) {
    v.errand.Placing? ==>
      match v.progress
      case Begun => true
      case Looked(_) => false
      case Posted(seen, sent, a) =>
        seen.None? && sent == Internal(v.errand.request, sent.instrument) && PostedAs(r, a, v.key, sent)
      case Replied(_) => v.key in r.table && SamePayment(v.errand.request, r.table[v.key].req)
  }

  predicate PaymentsMatch(s: System) {
    && (forall k :: k in s.operator.orders ==>
          k in s.router.table && SamePayment(s.operator.orders[k].request, s.router.table[k].req))
    && (forall c :: c in s.operator.serving ==> ServesItsRequest(s.router, s.operator.serving[c]))
  }

  /******* Router steps *******/

  lemma ServedAsSent(row: Row, req: RouterPaymentRequest)
    requires GoodPayload(row) && ValidRouterRequest(Canon(req)) && Accepts(row.digest, req)
    ensures StoredAsSent(row.req, req)
  {
    ServedIsStored(row, req);
    CanonIsAsSent(row.req, req);
  }

  /** A reservation answers its attempt only for a payment it found and accepted. */
  lemma ReserveShape(cfg: R.Config, r: R.Router, step: R.Step)
    requires R.AnswerOnce(r) && R.Enabled(cfg, r, step) && step.Reserve?
    ensures var r', a := R.Apply(cfg, r, step), step.a;
            && !R.Unused(r', a)
            && (a in r'.attempts ==> r'.attempts[a].key == r.attempts[a].key && r'.attempts[a].req == r.attempts[a].req)
            && (a in r'.answers ==>
                  r.attempts[a].key in r.table && Accepts(r.table[r.attempts[a].key].digest, r.attempts[a].req))
  {
    hide Accepts, NewRow, View, R.Released;
  }

  lemma ReserveAnswersSame(cfg: R.Config, r: R.Router, step: R.Step)
    requires R.AnswerOnce(r) && P.PayloadInv(r) && R.Enabled(cfg, r, step) && step.Reserve?
    ensures var r', a := R.Apply(cfg, r, step), step.a;
            && !R.Unused(r', a)
            && (a in r'.attempts ==> r'.attempts[a].key == r.attempts[a].key && r'.attempts[a].req == r.attempts[a].req)
            && (a in r'.answers ==>
                  r.attempts[a].key in r.table && StoredAsSent(r.table[r.attempts[a].key].req, r.attempts[a].req))
  {
    hide GoodPayload, ValidRouterRequest, Canon, Accepts, StoredAsSent, R.Apply, R.Unused;
    ReserveShape(cfg, r, step);
    var key, req := r.attempts[step.a].key, r.attempts[step.a].req;
    if key in r.table && Accepts(r.table[key].digest, req) {
      assert P.Carries(r, r.attempts[step.a]);
      ServedAsSent(r.table[key], req);
    }
  }

  lemma PersistAnswersSame(cfg: R.Config, r: R.Router, step: R.Step)
    requires P.PayloadInv(r) && R.Enabled(cfg, r, step) && step.Persist?
    ensures var r', a := R.Apply(cfg, r, step), step.a;
            && !R.Unused(r', a) && a !in r'.attempts
            && r.attempts[a].key in r.table && StoredAsSent(r.table[r.attempts[a].key].req, r.attempts[a].req)
  {
    hide GoodPayload, StoredAsSent, Canon, FencedWrite, ValidRouterRequest, R.Enabled, R.Apply;
    RouterProofs.PersistShape(cfg, r, step.a, step.now, step.outcome);
    assert P.Carries(r, r.attempts[step.a]);
    CanonIsAsSent(r.table[r.attempts[step.a].key].req, r.attempts[step.a].req);
  }

  lemma CallKeepsRequest(cfg: R.Config, r: R.Router, step: R.Step)
    requires R.AnswerOnce(r) && R.Enabled(cfg, r, step) && !step.Arrive? && !step.Reserve? && !step.Persist?
    ensures var r', a := R.Apply(cfg, r, step), step.a;
            && !R.Unused(r', a) && a !in r'.answers
            && (a in r'.attempts ==> r'.attempts[a].key == r.attempts[a].key && r'.attempts[a].req == r.attempts[a].req)
  {
    hide Decide, R.ApplyReserve, R.ApplyPersist, ValidRouterRequest, Canon;
  }

  lemma PostedAsKept(cfg: R.Config, r: R.Router, step: R.Step, a: nat, key: string, sent: RouterPaymentRequest)
    requires R.AnswerOnce(r) && P.PayloadInv(r) && R.Enabled(cfg, r, step) && PostedAs(r, a, key, sent)
    requires Evolves(R.Apply(cfg, r, step).table, r.table)
    ensures PostedAs(R.Apply(cfg, r, step), a, key, sent)
  {
    var r' := R.Apply(cfg, r, step);
    if step.a != a {
      RouterTheorems.OthersLeaveAttempt(cfg, r, a, step);
      hide R.Enabled, R.Apply, P.PayloadInv, StoredAsSent;
    } else {
      assert !step.Arrive? && a in r.attempts by { hide R.Apply, ValidRouterRequest, Canon, Decide; }
      hide StoredAsSent, P.PayloadInv, R.Enabled, R.Apply, R.Unused;
      if step.Reserve? {
        ReserveAnswersSame(cfg, r, step);
      } else if step.Persist? {
        PersistAnswersSame(cfg, r, step);
      } else {
        CallKeepsRequest(cfg, r, step);
      }
    }
  }

  lemma RouterKeepsMatch(cfg: R.Config, s: System, s': System, step: R.Step)
    requires R.AnswerOnce(s.router) && P.PayloadInv(s.router) && R.Enabled(cfg, s.router, step)
    requires s' == s.(router := R.Apply(cfg, s.router, step)) && Evolves(s'.router.table, s.router.table)
    requires PaymentsMatch(s)
    ensures PaymentsMatch(s')
  {
    forall c | c in s.operator.serving ensures ServesItsRequest(s'.router, s.operator.serving[c]) {
      var v := s.operator.serving[c];
      assert ServesItsRequest(s.router, v);
      if v.errand.Placing? && v.progress.Posted? {
        PostedAsKept(cfg, s.router, step, v.progress.a, v.key, v.progress.sent);
      }
      hide PostedAs, SamePayment, R.Enabled, R.Apply, P.PayloadInv;
    }
    hide ServesItsRequest, SamePayment, R.Enabled, R.Apply, P.PayloadInv;
  }

  /******* Operator steps *******/

  lemma HearKeepsMatch(s: System, c: nat)
    requires PaymentsMatch(s) && OperatorEnabled(s, Hear(c))
    ensures PaymentsMatch(s.(operator := ApplyOperator(s, Hear(c))))
  {
    var v := s.operator.serving[c];
    assert ServesItsRequest(s.router, v);
    if v.errand.Placing? {
      PostedIsSame(s.router.table[v.key].req, v.errand.request, v.progress.sent.instrument);
    }
    hide SamePayment, PostedAs;
  }

  /** A finished request leaves all orders but its own alone, and in its own the payment it was for. */
  lemma FinishShape(op: Operator, c: nat, outcome: R.Outcome)
    requires c in op.serving && (op.serving[c].errand.Placing? ==> Got(op.serving[c].progress).Some?)
    ensures var op', v := ApplyFinish(op, c, outcome), op.serving[c];
            && op'.serving == op.serving - {c}
            && forall k :: k in op'.orders ==>
                 if k in op.orders then op'.orders[k].request == op.orders[k].request
                 else k == v.key && v.errand.Placing? && op'.orders[k].request == v.errand.request
  {
  }

  lemma FinishKeepsMatch(s: System, c: nat, outcome: R.Outcome)
    requires PaymentsMatch(s) && OperatorEnabled(s, Finish(c, outcome))
    ensures PaymentsMatch(s.(operator := ApplyFinish(s.operator, c, outcome)))
  {
    hide SamePayment, PostedAs, ApplyFinish;
    assert ServesItsRequest(s.router, s.operator.serving[c]);
    FinishShape(s.operator, c, outcome);
  }

  lemma OperatorKeepsMatch(s: System, o: OperatorStep)
    requires PaymentsMatch(s) && OperatorEnabled(s, o)
    ensures PaymentsMatch(s.(operator := ApplyOperator(s, o)))
  {
    match o
    case Hear(c) => HearKeepsMatch(s, c);
    case Finish(c, outcome) => FinishKeepsMatch(s, c, outcome);
    case _ => hide SamePayment, PostedAs;
  }

  lemma PostedIsServed(s: System, m: System, c: nat, a: nat, req: RouterPaymentRequest)
    requires PaymentsMatch(m) && c in m.operator.serving && MayPost(m.operator.serving[c], req)
    requires a in m.router.attempts && a !in m.router.answers
    requires m.router.attempts[a].key == m.operator.serving[c].key && m.router.attempts[a].req == req
    requires var v := m.operator.serving[c];
             s == m.(operator := WithServing(m.operator, c, v.(progress := Posted(Got(v.progress), req, a))))
    ensures PaymentsMatch(s)
  {
    assert ServesItsRequest(m.router, m.operator.serving[c]);
    hide SamePayment;
  }

  /** A post is a router step and a new stage of the request that posts. */
  lemma PostKeepsMatch(cfg: R.Config, s: System, c: nat, a: nat, req: RouterPaymentRequest)
    requires PaymentsMatch(s) && R.AnswerOnce(s.router) && P.PayloadInv(s.router) && Enabled(cfg, s, Post(c, a, req))
    requires Evolves(Apply(cfg, s, Post(c, a, req)).router.table, s.router.table)
    ensures PaymentsMatch(Apply(cfg, s, Post(c, a, req)))
  {
    hide PaymentsMatch, MayPost, P.PayloadInv, ValidRouterRequest, Canon, R.AnswerOnce, Evolves;
    var arrive := R.Arrive(a, s.operator.serving[c].key, req);
    var m := s.(router := R.Apply(cfg, s.router, arrive));
    RouterKeepsMatch(cfg, s, m, arrive);
    PostedIsServed(Apply(cfg, s, Post(c, a, req)), m, c, a, req);
  }

  /******* Every run *******/

  lemma StepKeepsMatch(cfg: R.Config, s: System, step: Step)
    requires Good(cfg, s) && PaymentsMatch(s) && Enabled(cfg, s, step)
    ensures PaymentsMatch(Apply(cfg, s, step))
  {
    StepIsGood(cfg, s, step);
    assert R.AnswerOnce(s.router) && P.PayloadInv(s.router)
           && Evolves(Apply(cfg, s, step).router.table, s.router.table);
    hide Good, Grows, PaymentsMatch, R.AnswerOnce, P.PayloadInv, Evolves;
    hide R.Enabled, R.Apply, L.Enabled, L.Apply, OperatorEnabled, ApplyOperator;
    match step
    case RouterStep(r) => RouterKeepsMatch(cfg, s, Apply(cfg, s, step), r);
    case GatewayStep(g, l) => GatewayKeepsMatch(cfg, s, g, l);
    case OperatorStep(o) => OperatorKeepsMatch(s, o);
    case Post(c, a, req) => PostKeepsMatch(cfg, s, c, a, req);
  }

  lemma GatewayKeepsMatch(cfg: R.Config, s: System, g: GatewayName, l: L.Step)
    requires PaymentsMatch(s) && Enabled(cfg, s, GatewayStep(g, l))
    ensures PaymentsMatch(Apply(cfg, s, GatewayStep(g, l)))
  {
    hide ServesItsRequest, SamePayment, L.Enabled, L.Apply;
  }

  lemma {:induction false} RunKeepsMatch(cfg: R.Config, steps: seq<Step>)
    requires Exec(cfg, INITIAL, steps).Some?
    ensures PaymentsMatch(Exec(cfg, INITIAL, steps).value)
  {
    if steps != [] {
      hide Good, Enabled, Apply, PaymentsMatch;
      var before := steps[..|steps| - 1];
      RunKeepsMatch(cfg, before);
      var m := Exec(cfg, INITIAL, before).value;
      assert Reachable(cfg, m);
      hide Reachable;
      ReachableIsGood(cfg, m);
      StepKeepsMatch(cfg, m, steps[|steps| - 1]);
    }
  }

  /** In every reachable state a cached order is for the payment the router holds under its key; and if
      the order says SUCCEEDED, that payment is charged, once, under the order's reference. */
  lemma OrdersAreTheirPayments(cfg: R.Config, s: System, key: string)
    requires Reachable(cfg, s) && key in s.operator.orders
    ensures var o := s.operator.orders[key];
            && key in s.router.table && SamePayment(o.request, s.router.table[key].req)
            && (o.status.Succeeded? ==>
                  && Charged(s, Charge(o.gateway, o.gateway, key))
                  && L.Results(Gateway(s, o.gateway).disk, o.gateway)[key].ref == o.ref)
  {
    var steps :| Exec(cfg, INITIAL, steps) == Some(s);
    RunKeepsMatch(cfg, steps);
    hide Reachable, SamePayment, ServesItsRequest;
    OrdersNeverAhead(cfg, s, key);
    RowsTellTheTruth(cfg, s, key);
  }
}
