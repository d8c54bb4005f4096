/** One step of any service keeps the joint invariant. */
module SystemProofs {
  import opened Payments
  import opened Adapters
  import opened PaymentsTable
  import opened PaymentSystem
  import L = LedgerMachine
  import R = RouterMachine
  import RouterTheorems

  lemma InitialIsGood(cfg: R.Config)
    ensures Inv(cfg, INITIAL)
  {
    L.FreshIsGood();
  }

  /******* Gateway steps *******/

  lemma AskedKept(called: set<R.Call>, g: GatewayName, p: L.Process, l: L.Step)
    requires L.Inv(p) && L.Enabled(p, l) && Asked(called, g, p)
    requires l.Arrive? ==> l.g == g && R.Call(g, l.key) in called
    ensures Asked(called, g, L.Apply(p, l))
  {
  }

  /** Backing only grows stronger as the disk extends. */
  lemma BackingKept(s: System, s': System)
    requires s'.router == s.router && RowsBacked(s) && ResultsBacked(s)
    requires L.Extends(s'.card.disk, s.card.disk) && L.Extends(s'.bank.disk, s.bank.disk)
    ensures RowsBacked(s') && ResultsBacked(s')
  {
  }

  lemma GatewayStepKeepsInv(cfg: R.Config, s: System, g: GatewayName, l: L.Step)
    requires Inv(cfg, s) && Enabled(cfg, s, GatewayStep(g, l))
    ensures var s' := Apply(cfg, s, GatewayStep(g, l));
            Inv(cfg, s') && L.Extends(s'.card.disk, s.card.disk) && L.Extends(s'.bank.disk, s.bank.disk)
  {
    L.StepKeepsInv(Gateway(s, g), l);
    AskedKept(s.router.called, g, Gateway(s, g), l);
    BackingKept(s, Apply(cfg, s, GatewayStep(g, l)));
  }

  /** The faults the theorems allow for can strike whenever there is something to strike: any attempt may
      vanish, and lose its connection once it has asked for its lock; any write may be lost or go
      unreported; a provider may crash at any time, and its client may leave; any served request may be
      given up. */
  lemma RouterFaultsCanStrike(cfg: R.Config, s: System, a: nat, now: int, outcome: R.Outcome)
    requires s.router.clock < now
    ensures a in s.router.attempts ==> Enabled(cfg, s, RouterStep(R.Vanish(a)))
    ensures a in s.router.attempts && !s.router.attempts[a].phase.Queued? ==>
              Enabled(cfg, s, RouterStep(R.Disconnect(a)))
    ensures a in s.router.attempts && s.router.attempts[a].phase.Charging? ==>
              Enabled(cfg, s, RouterStep(R.RefuseCall(a)))
    ensures a in s.router.attempts && s.router.attempts[a].phase.Calling? ==>
              Enabled(cfg, s, RouterStep(R.Return(a, NoAnswer)))
                  && Enabled(cfg, s, RouterStep(R.Return(a, Http(401, Unparsable))))
    ensures a in s.router.attempts && s.router.attempts[a].phase.Returned? ==>
              Enabled(cfg, s, RouterStep(R.Persist(a, now, outcome)))
  {
    hide ValidRouterRequest, Canon, Decide, ToUpper;
  }

  /** A reservation that could have been acknowledged may just as well go unreported or be lost. */
  lemma ReservationMayBeLost(cfg: R.Config, s: System, a: nat, now: int, routerNow: int, id: string, outcome: R.Outcome)
    requires Enabled(cfg, s, RouterStep(R.Reserve(a, now, routerNow, id, R.Reported)))
    ensures Enabled(cfg, s, RouterStep(R.Reserve(a, now, routerNow, id, outcome)))
  {
    hide ValidRouterRequest, Canon, Decide;
  }

  lemma FaultsCanStrike(cfg: R.Config, s: System, c: nat, g: GatewayName, h: nat)
    requires L.DiskInStep(Gateway(s, g))
    ensures Enabled(cfg, s, GatewayStep(g, L.Restart))
    ensures h in Gateway(s, g).handlers && Gateway(s, g).handlers[h].Waiting? ==>
              Enabled(cfg, s, GatewayStep(g, L.Leave(h)))
    ensures Gateway(s, g).storing.Some? ==> Enabled(cfg, s, GatewayStep(g, L.StoreFailed))
    ensures c in s.operator.serving ==> Enabled(cfg, s, OperatorStep(Abandon(c)))
  {
    hide R.Enabled;
  }

  /******* Router steps *******/

  lemma NeverAheadKept(s: System, s': System)
    requires NeverAhead(s) && s'.operator == s.operator && Evolves(s'.router.table, s.router.table)
    ensures NeverAhead(s')
  {
  }

  /** A result the router accepts as final is backed by the gateway's disk. */
  lemma HeardIsBacked(s: System, g: GatewayName, key: string, answer: Answer)
    requires L.Inv(s.card) && L.Inv(s.bank) && Heard(s, g, key, answer)
    ensures Backed(Gateway(s, g).disk, g, key, CallProvider(g, answer))
  {
    VerdictsAreTheProviders(g, answer);
    if !Verdictless(g, answer) {
      var reply :| reply in Gateway(s, g).replies && reply.g == g && reply.key == key
          && answer == L.Encode(g, reply.entry);
      L.EntriesDecode(g, reply.entry);
    }
  }

  /** Every result in flight or recorded after a router step was there before, is PENDING, or was
      just heard from the gateway or copied from a result in flight. */
  lemma TracedKeepsBacking(s: System, s': System, r: R.Step)
    requires RowsBacked(s) && ResultsBacked(s) && s' == s.(router := s'.router)
    requires RouterTheorems.ResultsTraced(s.router, s'.router, r)
    requires r.Return? && r.a in s'.router.attempts && s'.router.attempts[r.a].phase.Returned? ==>
               var mine := s'.router.attempts[r.a];
               Backed(Gateway(s, mine.phase.ticket.gateway).disk, mine.phase.ticket.gateway, mine.key,
                   mine.phase.result)
    ensures RowsBacked(s') && ResultsBacked(s')
  {
  }

  lemma RouterStepKeepsInv(cfg: R.Config, s: System, r: R.Step)
    requires Inv(cfg, s) && Enabled(cfg, s, RouterStep(r))
    ensures var s' := Apply(cfg, s, RouterStep(r)); Inv(cfg, s') && Evolves(s'.router.table, s.router.table)
  {
    var s' := Apply(cfg, s, RouterStep(r));
    RouterTheorems.StepKeepsInv(cfg, s.router, r);
    RouterTheorems.StepTraced(cfg, s.router, r);
    NeverAheadKept(s, s');
    if r.Return? {
      HeardIsBacked(s, s.router.attempts[r.a].phase.ticket.gateway, s.router.attempts[r.a].key, r.answer);
    }
    TracedKeepsBacking(s, s', r);
  }

  /******* Operator steps *******/

  lemma FinishKeepsNeverAhead(s: System, c: nat, outcome: R.Outcome)
    requires NeverAhead(s) && OperatorEnabled(s, Finish(c, outcome))
    ensures NeverAhead(s.(operator := ApplyFinish(s.operator, c, outcome)))
  {
    assert ServingAgrees(s.router.table, s.operator.serving[c]);
  }

  lemma BeginKeepsNeverAhead(s: System, o: OperatorStep)
    requires NeverAhead(s) && OperatorEnabled(s, o) && (o.BeginPost? || o.BeginGet?)
    ensures NeverAhead(s.(operator := ApplyOperator(s, o)))
  {
    assert o.key in s.operator.orders ==> OrderAgrees(s.router.table, o.key, s.operator.orders[o.key]);
  }

  lemma FetchKeepsNeverAhead(s: System, c: nat, rowKey: string)
    requires NeverAhead(s) && OperatorEnabled(s, Fetch(c, rowKey)) && UniqueIds(s.router.table)
    ensures NeverAhead(s.(operator := ApplyOperator(s, Fetch(c, rowKey))))
  {
    assert ServingAgrees(s.router.table, s.operator.serving[c]);
  }

  lemma HearKeepsNeverAhead(s: System, c: nat)
    requires NeverAhead(s) && OperatorEnabled(s, Hear(c)) && R.AnswersFit(s.router.table, s.router.answers)
    ensures NeverAhead(s.(operator := ApplyOperator(s, Hear(c))))
  {
    assert ServingAgrees(s.router.table, s.operator.serving[c]);
  }

  lemma OperatorKeepsNeverAhead(s: System, o: OperatorStep)
    requires NeverAhead(s) && OperatorEnabled(s, o) && UniqueIds(s.router.table)
             && R.AnswersFit(s.router.table, s.router.answers)
    ensures NeverAhead(s.(operator := ApplyOperator(s, o)))
  {
    match o
    case BeginPost(_, _, _) => BeginKeepsNeverAhead(s, o);
    case BeginGet(_, _) => BeginKeepsNeverAhead(s, o);
    case Fetch(c, rowKey) => FetchKeepsNeverAhead(s, c, rowKey);
    case Hear(c) => HearKeepsNeverAhead(s, c);
    case Finish(c, outcome) => FinishKeepsNeverAhead(s, c, outcome);
    case Abandon(c) =>
  }

  lemma OperatorStepKeepsInv(cfg: R.Config, s: System, o: OperatorStep)
    requires Inv(cfg, s) && Enabled(cfg, s, OperatorStep(o))
    ensures Inv(cfg, Apply(cfg, s, OperatorStep(o)))
  {
    OperatorKeepsNeverAhead(s, o);
    BackingKept(s, Apply(cfg, s, OperatorStep(o)));
  }

  /** The order under the key has become o, unless the write was not done; all others are as they were. */
  predicate Stores(op: Operator, op': Operator, key: string, o: Order, outcome: R.Outcome) {
    if outcome.NotDone? then op'.orders == op.orders else op'.orders == op.orders[key := o]
  }

  /** One reply has been given, and it is r, if the commit was acknowledged; none otherwise. */
  predicate Gives(op: Operator, op': Operator, r: PublicReply, acknowledged: bool) {
    op'.replies == if acknowledged then op.replies + {r} else op.replies
  }

  /** A first request stores its payment and tells it, unless another order stands there. */
  lemma FirstRequestFinishes(op: Operator, c: nat, outcome: R.Outcome) returns (o: Order, r: PublicReply)
    requires c in op.serving && op.serving[c].errand.Placing? && Got(op.serving[c].progress).Some?
    ensures var Serving(Placing(request), key, progress) := op.serving[c];
            var op', p := ApplyFinish(op, c, outcome), Got(progress).value;
            && HoldsPayment(o, p) && o.id == p.id && o.request == request && TellsPayment(r, key, p)
            && op'.serving == op.serving - {c}
            && if key in op.orders || exists k :: k in op.orders && op.orders[k].id == p.id
               then op'.orders == op.orders && op'.replies == op.replies
               else Stores(op, op', key, o, outcome) && Gives(op, op', r, outcome.Reported?)
  {
    var p := Got(op.serving[c].progress).value;
    o, r := Placed(op.serving[c].errand.request, p), FromRouter(op.serving[c].key, p);
  }

  /** A replay rewrites its order with what it got, and tells it; or it tells the order as it was. */
  lemma ReplayFinishes(op: Operator, c: nat, outcome: R.Outcome) returns (o: Order, r: PublicReply)
    requires c in op.serving && op.serving[c].errand.Refreshing? && op.serving[c].key in op.orders
    ensures var Serving(Refreshing(was), key, progress) := op.serving[c];
            var op', got := ApplyFinish(op, c, outcome), Got(progress);
            && op'.serving == op.serving - {c} && Gives(op, op', r, outcome.Reported?)
            && if got.None? then op'.orders == op.orders && TellsOrder(r, key, was.id, was)
               else
                 && Stores(op, op', key, o, outcome) && TellsPayment(r, key, got.value) && HoldsPayment(o, got.value)
                 && o.id == op.orders[key].id && o.request == op.orders[key].request
  {
    var Serving(Refreshing(was), key, progress) := op.serving[c];
    o, r := op.orders[key], FromOrder(key, was.id, was);
    if Got(progress).Some? {
      o, r := Refreshed(op.orders[key], Got(progress).value), FromRouter(key, Got(progress).value);
    }
  }

  /** A lookup tells what it got, or the order as it was, whether or not the write-back was done; the
      write-back changes the result and nothing else. */
  lemma LookupFinishes(op: Operator, c: nat, outcome: R.Outcome) returns (o: Order, r: PublicReply)
    requires c in op.serving && op.serving[c].errand.Looking? && op.serving[c].key in op.orders
    ensures var Serving(Looking(was), key, progress) := op.serving[c];
            var op', got := ApplyFinish(op, c, outcome), Got(progress);
            && op'.serving == op.serving - {c} && Gives(op, op', r, true)
            && if got.None? then op'.orders == op.orders && TellsOrder(r, key, was.paymentId, was)
               else
                 && Stores(op, op', key, o, outcome) && TellsPayment(r, key, got.value)
                 && HoldsPayment(o.(paymentId := got.value.id), got.value)
                 && o.id == op.orders[key].id && o.request == op.orders[key].request
                 && o.paymentId == op.orders[key].paymentId
  {
    var Serving(Looking(was), key, progress) := op.serving[c];
    o, r := op.orders[key], FromOrder(key, was.paymentId, was);
    if Got(progress).Some? {
      o, r := WrittenBack(op.orders[key], Got(progress).value), FromRouter(key, Got(progress).value);
    }
  }

  /** A request begins with what the order cache says: a terminal order is told at once, a pending one
      has to be refreshed, and without an order the payment has to be placed. */
  lemma PostBegins(s: System, c: nat, key: string, request: PublicRequest) returns (r: PublicReply)
    requires OperatorEnabled(s, BeginPost(c, key, request))
    ensures var op, op' := s.operator, ApplyOperator(s, BeginPost(c, key, request));
            && op'.orders == op.orders
            && if key in op.orders && Terminal(op.orders[key].status) then
                 op'.serving == op.serving && TellsOrder(r, key, op.orders[key].id, op.orders[key])
                     && Gives(op, op', r, true)
               else
                 && op'.replies == op.replies && op'.serving.Keys == op.serving.Keys + {c}
                 && op'.serving[c].progress.Begun? && op'.serving[c].key == key
                 && if key in op.orders then op'.serving[c].errand == Refreshing(op.orders[key])
                    else op'.serving[c].errand == Placing(request)
  {
    r := if key in s.operator.orders then FromOrder(key, s.operator.orders[key].id, s.operator.orders[key])
         else PublicReply("", key, Pending, GatewayCard, "", "");
  }

  /** Every request is taken up: a lookup whenever there is an order, a post unless the key belongs to
      another public request, which is the conflict. */
  lemma RequestsAreTaken(s: System, c: nat, key: string, request: PublicRequest)
    requires c !in s.operator.serving
    ensures OperatorEnabled(s, BeginPost(c, key, request)) <==>
              key !in s.operator.orders || s.operator.orders[key].request == request
    ensures OperatorEnabled(s, BeginGet(c, key)) <==> key in s.operator.orders
    ensures key in s.operator.orders ==>
              var op := ApplyOperator(s, BeginGet(c, key));
              && op.orders == s.operator.orders && op.replies == s.operator.replies
              && op.serving == s.operator.serving[c := Serving(Looking(s.operator.orders[key]), key, Begun)]
  {
  }

  /** What may be posted, and that a post loses nothing: a first request posts what the client asked for,
      a replay posts the frozen request it looked up and only while the payment is pending there, a
      lookup posts nothing; and if no reply is heard, what was looked up is still what is in hand. */
  lemma PostSpelledOut(cfg: R.Config, s: System, c: nat, a: nat, req: RouterPaymentRequest)
    requires Enabled(cfg, s, Post(c, a, req))
    ensures var v, s' := s.operator.serving[c], Apply(cfg, s, Post(c, a, req));
            && !v.progress.Replied?
            && (v.progress.Begun? ==>
                  && v.errand.Placing? && req.debtor == v.errand.request.debtor
                     && req.creditor == v.errand.request.creditor
                  && req.amountMinor == v.errand.request.amountMinor && req.reference == v.errand.request.reference
                  && req.currency == v.errand.request.currency)
            && (v.progress.Looked? ==>
                  v.errand.Refreshing? && v.progress.lookup.payment.status.Pending? && req == v.progress.lookup.request)
            && (v.progress.Posted? ==> req == v.progress.sent)
            && a !in s.router.attempts && a in s'.router.attempts
            && s'.router.attempts[a].key == v.key && s'.router.attempts[a].req == req
            && s'.operator.serving[c].progress.Posted? && s'.operator.serving[c].progress.a == a
            && Got(s'.operator.serving[c].progress) ==
                 match v.progress {
                   case Looked(lookup) => Some(lookup.payment)
                   case Posted(seen, _, _) => seen
                   case _ => None
                 }
  {
    hide ValidRouterRequest, Canon;
  }

  /** A request that is given up tells nothing and leaves every order as it was. */
  lemma AbandonedIsForgotten(s: System, c: nat)
    requires OperatorEnabled(s, Abandon(c))
    ensures var op' := ApplyOperator(s, Abandon(c));
            op'.orders == s.operator.orders && op'.replies == s.operator.replies
                && op'.serving == s.operator.serving - {c}
  {
  }

  /******* Posting: an operator step and a router step at once *******/

  lemma PostKeepsInv(cfg: R.Config, s: System, c: nat, a: nat, req: RouterPaymentRequest)
    requires Inv(cfg, s) && Enabled(cfg, s, Post(c, a, req))
    ensures Inv(cfg, Apply(cfg, s, Post(c, a, req)))
  {
    var arrive := R.Arrive(a, s.operator.serving[c].key, req);
    RouterStepKeepsInv(cfg, s, arrive);
    var m := Apply(cfg, s, RouterStep(arrive));
    assert m == s.(router := R.Apply(cfg, s.router, arrive));
    PostKeepsNeverAhead(m, c, a, req);
    BackingKept(m, Apply(cfg, s, Post(c, a, req)));
    hide R.Inv, R.Enabled, R.Apply, L.Inv, Asked, RowsBacked, ResultsBacked, NeverAhead;
  }

  lemma PostKeepsNeverAhead(s: System, c: nat, a: nat, req: RouterPaymentRequest)
    requires NeverAhead(s) && c in s.operator.serving
    ensures var v := s.operator.serving[c];
            NeverAhead(s.(operator := WithServing(s.operator, c, v.(progress := Posted(Got(v.progress), req, a)))))
  {
    assert ServingAgrees(s.router.table, s.operator.serving[c]);
  }
}
