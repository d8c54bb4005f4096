/** The three services together: the router machine, one ledger process per gateway, and the
    operator with its order cache (cmd/payment-operator/main.go). The operator posts to the router by
    starting an attempt there, and hears what that attempt answers; the router may besides serve any
    other request at any time, and a gateway may see any number of copies of a request the router
    ever sent. The operator's transaction lock is left out: nothing below needs it. */
module PaymentSystem {
  import opened Payments
  import opened Adapters
  import opened PaymentsTable
  import L = LedgerMachine
  import R = RouterMachine

  /******* The operator *******/

  datatype PublicRequest = PublicRequest(
    debtor: string, creditor: string, amountMinor: int, currency: string, reference: string)

  /** A cached order; the public digest is injective, so it is the public request. */
  datatype Order = Order(
    id: string, paymentId: string, request: PublicRequest,
    status: Status, gateway: GatewayName, ref: string, error: string)

  datatype PublicReply = PublicReply(
    id: string, key: string, status: Status, gateway: GatewayName, ref: string, error: string)

  /** A request being served; an order is the row as first read. */
  datatype Errand = Placing(request: PublicRequest) | Refreshing(order: Order) | Looking(order: Order)

  /** How far it got with the router: it has looked the payment up, it has posted a request and waits
      for that attempt, it has its reply. */
  datatype Progress =
    | Begun
    | Looked(lookup: Lookup)
    | Posted(seen: Option<PaymentResponse>, sent: RouterPaymentRequest, a: nat)
    | Replied(payment: PaymentResponse)

  datatype Serving = Serving(errand: Errand, key: string, progress: Progress)

  /** The latest router answer in hand: a post that fails leaves what was looked up before. */
  function Got(p: Progress): Option<PaymentResponse> {
    match p
    case Begun => None
    case Looked(lookup) => Some(lookup.payment)
    case Posted(seen, _, _) => seen
    case Replied(payment) => Some(payment)
  }

  /** The internal request of a first post; the participants decide the instrument. */
  function Internal(r: PublicRequest, instrument: string): RouterPaymentRequest {
    RouterPaymentRequest(r.debtor, r.creditor, r.amountMinor, r.currency, r.reference, instrument)
  }

  /** A public request and a stored payment are the same payment. */
  predicate SamePayment(p: PublicRequest, stored: RouterPaymentRequest) {
    && stored.debtor == p.debtor && stored.creditor == p.creditor
    && stored.amountMinor == p.amountMinor && stored.reference == p.reference
    && SameLetters(stored.currency, TrimSpace(p.currency)) && NoSmallLetter(stored.currency)
  }

  /** What was posted for a public request is that payment. */
  lemma PostedIsSame(stored: RouterPaymentRequest, p: PublicRequest, instrument: string)
    requires StoredAsSent(stored, Internal(p, instrument))
    ensures SamePayment(p, stored)
  {
  }

  /** The reply tells this payment, and likewise this order under this id. */
  predicate TellsPayment(r: PublicReply, key: string, p: PaymentResponse) {
    && r.key == key && r.id == p.id && r.status == p.status && r.gateway == p.gateway
    && r.ref == p.ref && r.error == p.error
  }

  predicate TellsOrder(r: PublicReply, key: string, id: string, o: Order) {
    && r.key == key && r.id == id && r.status == o.status && r.gateway == o.gateway
    && r.ref == o.ref && r.error == o.error
  }

  /** The order holds this payment. */
  predicate HoldsPayment(o: Order, p: PaymentResponse) {
    o.paymentId == p.id && o.status == p.status && o.gateway == p.gateway && o.ref == p.ref && o.error == p.error
  }

  /** What may be posted: the public request of a first order, or the frozen request of a payment
      found pending. A lost post may be sent again as it was. */
  predicate MayPost(v: Serving, req: RouterPaymentRequest) {
    match v.progress
    case Begun => v.errand.Placing? && req == Internal(v.errand.request, req.instrument)
    case Looked(lookup) =>
      v.errand.Refreshing? && lookup.payment.status.Pending? && lookup.request.instrument != "" && req == lookup.request
    case Posted(_, sent, _) => req == sent
    case Replied(_) => false
  }

  datatype Operator = Operator(orders: map<string, Order>, serving: map<nat, Serving>, replies: set<PublicReply>)

  /** A cached order is answered under its own id by POST and under its payment id by GET. */
  function FromOrder(key: string, id: string, o: Order): PublicReply {
    PublicReply(id, key, o.status, o.gateway, o.ref, o.error)
  }

  function FromRouter(key: string, r: PaymentResponse): PublicReply {
    PublicReply(r.id, key, r.status, r.gateway, r.ref, r.error)
  }

  /** The locked replay rewrites the whole order; the unlocked write-back of a lookup leaves
      payment_id alone. */
  function Refreshed(o: Order, r: PaymentResponse): Order {
    o.(paymentId := r.id, status := r.status, gateway := r.gateway, ref := r.ref, error := r.error)
  }

  function WrittenBack(o: Order, r: PaymentResponse): Order {
    o.(status := r.status, gateway := r.gateway, ref := r.ref, error := r.error)
  }

  function Placed(request: PublicRequest, r: PaymentResponse): Order {
    Order(r.id, r.id, request, r.status, r.gateway, r.ref, r.error)
  }

  /** Hear takes the answer of the very attempt the request was posted as; the key comparison in
      OperatorEnabled only keeps apart attempts that reuse the name of one that vanished unanswered. */
  datatype OperatorStep =
    | BeginPost(c: nat, key: string, request: PublicRequest)
    | BeginGet(c: nat, key: string)
    | Fetch(c: nat, rowKey: string)
    | Hear(c: nat)
    | Finish(c: nat, outcome: R.Outcome)
    | Abandon(c: nat)

  /******* The system *******/

  datatype System = System(router: R.Router, card: L.Process, bank: L.Process, operator: Operator)

  datatype Step =
    | RouterStep(r: R.Step)
    | GatewayStep(g: GatewayName, l: L.Step)
    | OperatorStep(o: OperatorStep)
    | Post(c: nat, a: nat, req: RouterPaymentRequest)

  const INITIAL := System(R.EMPTY_ROUTER, L.FRESH, L.FRESH, Operator(map[], map[], {}))

  function Gateway(s: System, g: GatewayName): L.Process {
    match g case GatewayCard => s.card case GatewayBank => s.bank
  }

  function WithGateway(s: System, g: GatewayName, p: L.Process): System {
    match g case GatewayCard => s.(card := p) case GatewayBank => s.(bank := p)
  }

  /** PENDING, or failed by a 4xx answer: no verdict of the gateway is claimed. */
  predicate Unverdicted(r: ProviderResult) {
    r.status.Pending? || (r.status.Failed? && r.error == REJECTED_REQUEST)
  }

  /** No answer, an error answer, or a body without one of the gateway's two words. */
  predicate Verdictless(g: GatewayName, answer: Answer) {
    || answer.NoAnswer? || answer.code >= 400 || answer.body.Unparsable?
    || (!Approves(g, answer.body.verdict) && !Refuses(g, answer.body.verdict))
  }

  /** A verdict reaches the router only as the gateway's own 200 answer; any other answer may come at
      any time. */
  predicate Heard(s: System, g: GatewayName, key: string, answer: Answer) {
    || Verdictless(g, answer)
    || exists reply ::
         reply in Gateway(s, g).replies && reply.g == g && reply.key == key && answer == L.Encode(g, reply.entry)
  }

  predicate OperatorEnabled(s: System, o: OperatorStep) {
    var op := s.operator;
    match o
    case BeginPost(c, key, request) => c !in op.serving && (key in op.orders ==> op.orders[key].request == request)
    case BeginGet(c, key) => c !in op.serving && key in op.orders
    case Fetch(c, rowKey) =>
      && c in op.serving && !op.serving[c].errand.Placing? && op.serving[c].progress.Begun? && rowKey in s.router.table
      && var order := op.serving[c].errand.order;
      && s.router.table[rowKey].id == (if op.serving[c].errand.Looking? then order.paymentId else order.id)
    case Hear(c) =>
      && c in op.serving && op.serving[c].progress.Posted? && op.serving[c].progress.a in s.router.answers
      && s.router.answers[op.serving[c].progress.a].key == op.serving[c].key
    case Finish(c, _) => c in op.serving && (op.serving[c].errand.Placing? ==> Got(op.serving[c].progress).Some?)
    case Abandon(c) => c in op.serving
  }

  predicate Enabled(cfg: R.Config, s: System, step: Step) {
    match step
    case RouterStep(r) =>
      && R.Enabled(cfg, s.router, r)
      && (r.Return? ==> Heard(s, s.router.attempts[r.a].phase.ticket.gateway, s.router.attempts[r.a].key, r.answer))
    case GatewayStep(g, l) =>
      L.Enabled(Gateway(s, g), l) && (l.Arrive? ==> l.g == g && R.Call(g, l.key) in s.router.called)
    case OperatorStep(o) => OperatorEnabled(s, o)
    case Post(c, a, req) =>
      && c in s.operator.serving && MayPost(s.operator.serving[c], req)
      && R.Enabled(cfg, s.router, R.Arrive(a, s.operator.serving[c].key, req))
  }

  function WithServing(op: Operator, c: nat, v: Serving): Operator { op.(serving := op.serving[c := v]) }

  function Replying(op: Operator, c: nat, outcome: R.Outcome, reply: PublicReply): Operator {
    op.(serving := op.serving - {c}, replies := if outcome.Reported? then op.replies + {reply} else op.replies)
  }

  function Storing(op: Operator, outcome: R.Outcome, key: string, o: Order): Operator {
    if outcome.NotDone? then op else op.(orders := op.orders[key := o])
  }

  function ApplyFinish(op: Operator, c: nat, outcome: R.Outcome): Operator
    requires c in op.serving && (op.serving[c].errand.Placing? ==> Got(op.serving[c].progress).Some?)
  {
    var Serving(errand, key, progress) := op.serving[c];
    var got := Got(progress);
    match errand
    case Placing(request) =>
      if key in op.orders || (exists k :: k in op.orders && op.orders[k].id == got.value.id) then
        op.(serving := op.serving - {c})
      else
        Replying(Storing(op, outcome, key, Placed(request, got.value)), c, outcome, FromRouter(key, got.value))
    case Refreshing(order) =>
      if got.None? || key !in op.orders then Replying(op, c, outcome, FromOrder(key, order.id, order))
      else Replying(Storing(op, outcome, key, Refreshed(op.orders[key], got.value)), c, outcome,
          FromRouter(key, got.value))
    case Looking(order) =>
      if got.None? || key !in op.orders then Replying(op, c, R.Reported, FromOrder(key, order.paymentId, order))
      else Replying(Storing(op, outcome, key, WrittenBack(op.orders[key], got.value)), c, R.Reported,
          FromRouter(key, got.value))
  }

  function ApplyOperator(s: System, o: OperatorStep): Operator
    requires OperatorEnabled(s, o)
  {
    var op := s.operator;
    match o
    case BeginPost(c, key, request) =>
      if key !in op.orders then WithServing(op, c, Serving(Placing(request), key, Begun))
      else if Terminal(op.orders[key].status)
          then op.(replies := op.replies + {FromOrder(key, op.orders[key].id, op.orders[key])})
      else WithServing(op, c, Serving(Refreshing(op.orders[key]), key, Begun))
    case BeginGet(c, key) => WithServing(op, c, Serving(Looking(op.orders[key]), key, Begun))
    case Fetch(c, rowKey) => WithServing(op, c,
        op.serving[c].(progress := Looked(LookupOf(rowKey, s.router.table[rowKey]))))
    case Hear(c) => WithServing(op, c, op.serving[c].(progress := Replied(s.router.answers[op.serving[c].progress.a])))
    case Finish(c, outcome) => ApplyFinish(op, c, outcome)
    case Abandon(c) => op.(serving := op.serving - {c})
  }

  function Apply(cfg: R.Config, s: System, step: Step): System
    requires Enabled(cfg, s, step)
  {
    match step
    case RouterStep(r) => s.(router := R.Apply(cfg, s.router, r))
    case GatewayStep(g, l) => WithGateway(s, g, L.Apply(Gateway(s, g), l))
    case OperatorStep(o) => s.(operator := ApplyOperator(s, o))
    case Post(c, a, req) =>
      var v := s.operator.serving[c];
      s.(router := R.Apply(cfg, s.router, R.Arrive(a, v.key, req)),
         operator := WithServing(s.operator, c, v.(progress := Posted(Got(v.progress), req, a))))
  }

  /******* The invariant *******/

  predicate AskedLedger(called: set<R.Call>, g: GatewayName, l: L.Ledger) {
    && (forall k :: k in l.card ==> g.GatewayCard? && R.Call(g, k) in called)
    && (forall k :: k in l.bank ==> g.GatewayBank? && R.Call(g, k) in called)
  }

  /** A slot of a process is in use only for calls the router really sent to that gateway. */
  predicate Asked(called: set<R.Call>, g: GatewayName, p: L.Process) {
    && AskedLedger(called, g, p.disk) && AskedLedger(called, g, p.mem)
    && (forall h :: h in p.handlers ==> p.handlers[h].g == g && R.Call(g, p.handlers[h].key) in called)
  }

  /** What a recorded status must have behind it on the gateway's disk. A refusal that the gateway
      never decided on shows in the error text. */
  predicate Backed(disk: L.Ledger, g: GatewayName, key: string, r: ProviderResult) {
    !Unverdicted(r) ==>
      key in L.Results(disk, g) && r == L.Outcome(g, L.Results(disk, g)[key])
  }

  predicate RowsBacked(s: System) {
    forall k :: k in s.router.table ==>
      Backed(Gateway(s, s.router.table[k].gateway).disk, s.router.table[k].gateway, k, RowResult(s.router.table[k]))
  }

  predicate ResultsBacked(s: System) {
    forall a :: a in s.router.attempts && s.router.attempts[a].phase.Returned? ==>
      var Returned(t, r) := s.router.attempts[a].phase;
      Backed(Gateway(s, t.gateway).disk, t.gateway, s.router.attempts[a].key, r)
  }

  /** An order or a public reply is about the router's row and, when terminal, says what it says. */
  predicate Agrees(table: Table, key: string, id: string, status: Status, gateway: GatewayName, ref: string,
                   error: string) {
    && key in table
    && id == table[key].id && gateway == table[key].gateway
    && (Terminal(status) ==> status == table[key].status && ref == table[key].ref && error == table[key].error)
  }

  predicate OrderAgrees(table: Table, key: string, o: Order) {
    o.id == o.paymentId && Agrees(table, key, o.id, o.status, o.gateway, o.ref, o.error)
  }

  predicate ServingAgrees(table: Table, v: Serving) {
    && (!v.errand.Placing? ==> OrderAgrees(table, v.key, v.errand.order))
    && (Got(v.progress).Some? ==> Got(v.progress).value.key == v.key && R.AnswerFits(table, Got(v.progress).value))
  }

  predicate NeverAhead(s: System) {
    && (forall k :: k in s.operator.orders ==> OrderAgrees(s.router.table, k, s.operator.orders[k]))
    && (forall c :: c in s.operator.serving ==> ServingAgrees(s.router.table, s.operator.serving[c]))
    && (forall p :: p in s.operator.replies ==>
         Agrees(s.router.table, p.key, p.id, p.status, p.gateway, p.ref, p.error))
  }

  ghost predicate Inv(cfg: R.Config, s: System) {
    && R.Inv(cfg, s.router)
    && L.Inv(s.card) && L.Inv(s.bank)
    && Asked(s.router.called, GatewayCard, s.card) && Asked(s.router.called, GatewayBank, s.bank)
    && RowsBacked(s) && ResultsBacked(s)
    && NeverAhead(s)
  }
}
