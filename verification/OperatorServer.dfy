/** The operator's handlers as they run (cmd/payment-operator/main.go:75-226, 299-373), calling the
    router's own handlers. Its order rows are a cache: created from a router answer, refreshed by a
    replay under the order lock and by a lookup without any lock. */
module OperatorServer {
  import opened Payments
  import opened PaymentsTable
  import opened RouterMachine
  import opened CircuitBreaker
  import opened RouterServer
  import opened PaymentSystem

  datatype PublicAnswer =
    | Malformed
    | Unknown
    | PayloadConflict
    | Failure
    | Told(reply: PublicReply)

  /** What the world decides during one public request. */
  datatype Surroundings = Surroundings(
    instrument: Option<string>, fetched: bool, heard: bool, stored: Outcome, router: World)

  predicate ValidPublic(r: PublicRequest) {
    && r.amountMinor > 0 && ValidCurrency(r.currency)
    && TrimSpace(r.debtor) != "" && TrimSpace(r.creditor) != "" && TrimSpace(r.reference) != ""
  }

  /** A request the operator serves at all. */
  predicate Servable(rawKey: string, request: PublicRequest) {
    var currency := TrimSpace(request.currency);
    && 1 <= |TrimSpace(rawKey)| <= 255
    && request.amountMinor > 0
    && |currency| == 3 && (forall i :: 0 <= i < 3 ==> 'A' <= currency[i] <= 'Z' || 'a' <= currency[i] <= 'z')
    && TrimSpace(request.debtor) != "" && TrimSpace(request.creditor) != "" && TrimSpace(request.reference) != ""
  }

  lemma ServableIffValid(rawKey: string, request: PublicRequest)
    ensures Servable(rawKey, request) <==>
              TrimSpace(rawKey) != "" && |TrimSpace(rawKey)| <= 255 && ValidPublic(request)
  {
  }

  /** An answer about a row stays right while rows evolve. */
  lemma AnswerSurvives(later: Table, earlier: Table, ans: PaymentResponse)
    requires AnswerFits(earlier, ans) && Evolves(later, earlier)
    ensures AnswerFits(later, ans)
  {
  }

  /** An idempotency key as the operator lets it through. */
  predicate TrimmedKey(key: string) { key != "" && |key| <= 255 && TrimSpace(key) == key }

  /** Another order stands where a new one would go. */
  predicate Rival(orders: map<string, Order>, key: string, id: string) {
    key in orders || exists k :: k in orders && orders[k].id == id
  }

  /** The router may turn a first post down because the key is another payment's, or because the drawn
      id is taken. */
  predicate TurnedDown(t: Table, key: string, req: RouterPaymentRequest, id: string) {
    (key in t && !Accepts(t[key].digest, req)) || exists k :: k in t && k != key && t[k].id == id
  }

  /** The order names the router's row, is for the same payment, and says no more than the row. */
  predicate OrderStands(t: Table, key: string, o: Order) {
    OrderAgrees(t, key, o) && SamePayment(o.request, t[key].req)
  }

  predicate OrdersAgree(t: Table, orders: map<string, Order>) {
    forall k :: k in orders ==> OrderStands(t, k, orders[k])
  }

  lemma OrderFits(t: Table, orders: map<string, Order>, key: string)
    requires OrdersAgree(t, orders) && key in orders
    ensures OrderStands(t, key, orders[key])
  {
  }

  lemma OrderSurvives(later: Table, earlier: Table, key: string, o: Order)
    requires OrderStands(earlier, key, o) && Evolves(later, earlier)
    ensures OrderStands(later, key, o)
  {
  }

  lemma OrdersSurvive(later: Table, earlier: Table, orders: map<string, Order>)
    requires OrdersAgree(earlier, orders) && Evolves(later, earlier)
    ensures OrdersAgree(later, orders)
  {
  }

  /** The order's id leads to the row of its key, and to no other. */
  lemma OrderIsFound(t: Table, orders: map<string, Order>, key: string, clock: int)
    requires GoodRows(t, clock) && OrdersAgree(t, orders) && key in orders
    ensures key in t && t[key].id == orders[key].id == orders[key].paymentId
    ensures forall k :: k in t && t[k].id == t[key].id ==> k == key
    ensures GoodPayload(t[key])
  {
    OrderFits(t, orders, key);
  }

  lemma LookupFits(t: Table, key: string)
    requires key in t
    ensures AnswerFits(t, View(key, t[key]))
  {
  }

  lemma RefreshedAgrees(t: Table, key: string, o: Order, p: PaymentResponse)
    requires OrderStands(t, key, o) && p.key == key && AnswerFits(t, p)
    ensures OrderStands(t, key, Refreshed(o, p)) && OrderStands(t, key, WrittenBack(o, p)) && p.id == o.id
    ensures Agrees(t, key, p.id, p.status, p.gateway, p.ref, p.error)
    ensures HoldsPayment(Refreshed(o, p), p) && HoldsPayment(WrittenBack(o, p), p)
    ensures Refreshed(o, p).id == WrittenBack(o, p).id == o.id
    ensures Refreshed(o, p).request == WrittenBack(o, p).request == o.request
  {
    hide SamePayment;
  }

  lemma PlacedAgrees(t: Table, key: string, request: PublicRequest, p: PaymentResponse)
    requires p.key == key && AnswerFits(t, p) && SamePayment(request, t[key].req)
    ensures OrderStands(t, key, Placed(request, p)) && Agrees(t, key, p.id, p.status, p.gateway, p.ref, p.error)
    ensures HoldsPayment(Placed(request, p), p) && Placed(request, p).id == p.id
            && Placed(request, p).request == request
  {
    hide SamePayment;
  }

  lemma AnswerHasItsRow(t: Table, p: PaymentResponse)
    requires AnswerFits(t, p)
    ensures p.key in t
  {
  }

  lemma FrozenHasInstrument(row: Row)
    requires GoodPayload(row)
    ensures row.req.instrument != ""
  {
  }

  lemma RowSurvives(later: Table, earlier: Table, key: string)
    requires Evolves(later, earlier) && key in earlier
    ensures key in later && later[key].req == earlier[key].req
  {
  }

  /** The frozen request of a row is acceptable, and later it is still no conflict and no first request. */
  lemma RepostIsNoConflict(later: Table, earlier: Table, key: string, delay: nat, routerNow: int)
    requires Evolves(later, earlier) && key in earlier && GoodPayload(earlier[key])
    ensures ValidRouterRequest(Canon(earlier[key].req))
    ensures var d := Decide(later, key, earlier[key].req, delay, routerNow); d.Claim? || d.Replayed?
  {
  }

  /** A healthy first post is paid unless the key is another payment's or the id is taken. */
  lemma WhyTurnedDown(t: Table, seen: Table, key: string, req: RouterPaymentRequest, w: World, at: int)
    requires Evolves(t, seen)
    ensures Decide(seen, key, req, w.delay, at + w.ahead).Conflict? ==> TurnedDown(t, key, req, w.id)
    ensures Decide(seen, key, req, w.delay, at + w.ahead).Fresh? && IdTaken(seen, w.id) ==>
              TurnedDown(t, key, req, w.id)
  {
    hide Accepts;
  }

  /** A valid public request with a valid instrument is one the router accepts. */
  lemma PublicIsAcceptable(r: PublicRequest, instrument: string)
    requires ValidPublic(r) && ValidInstrument(instrument)
    ensures ValidRouterRequest(Canon(Internal(r, instrument)))
  {
    UpperIsTight(r.currency);
  }

  class Service {
    var orders: map<string, Order>
    const router: Server

    /** No order says more than the router's row. */
    ghost predicate Valid()
      reads this, router, router.cardBreaker, router.bankBreaker
    {
      && router.Valid()
      && OrdersAgree(router.rows, orders)
    }

    /** Orders are never deleted or renamed. */
    twostate predicate Kept()
      reads this
    {
      forall k :: k in old(orders) ==>
        k in orders && orders[k].id == old(orders)[k].id && orders[k].request == old(orders)[k].request
    }

    constructor (router: Server)
      requires router.Valid()
      ensures Valid() && this.router == router && orders == map[]
    {
      this.router := router;
      orders := map[];
    }

    /** Everything other public requests and the router do while this one waits. */
    method OtherRequests()
      requires Valid()
      modifies this`orders, router`rows, router`clock, router.cardBreaker, router.bankBreaker
      ensures Valid() && Kept() && Evolves(router.rows, old(router.rows)) && router.BreakersRemember()
    {
      StillItself(router.rows);
    }

    /** Reposting the frozen request: it is no conflict and no first request, so when nothing fails the
        payment is settled and its row is the answer. */
    method RetryPending(key: string, request: RouterPaymentRequest, e: Surroundings)
      returns (retried: Option<PaymentResponse>)
      requires Valid() && TrimmedKey(key) && key in router.rows && request == router.rows[key].req
      modifies router`rows, router`clock, router.cardBreaker, router.bankBreaker
      ensures Valid() && Evolves(router.rows, old(router.rows)) && router.BreakersRemember()
      ensures retried.Some? ==> e.heard && retried.value.key == key && AnswerFits(router.rows, retried.value)
      ensures e.heard && Healthy(e.router) ==>
                && router.Settled(key, e.router, old(router.cardBreaker.history), old(router.bankBreaker.history))
                && retried == Some(View(key, router.rows[key]))
    {
      hide router.Recorded, Evolves, AnswerFits, Accepts, ValidRouterRequest, Canon, OrdersAgree, GoodPayload;
      assert GoodPayload(router.rows[key]);
      hide GoodRows;
      ValidIffPayable(request);
      hide Payable, StoredAsSent;
      var answer; ghost var seen, at;
      answer, seen, at := router.Create(key, request, e.router);
      EvolvesTransitive(router.rows, seen, old(router.rows));
      OrdersSurvive(router.rows, old(router.rows), orders);
      RepostIsNoConflict(seen, old(router.rows), key, e.router.delay, at + e.router.ahead);
      if !e.heard || !answer.Paid? {
        return None;
      }
      retried := Some(answer.payment);
    }

    /** Read through for a pending order, and repost the router's frozen request if it is pending
        there too. read is the router's table at the lookup. A repost of which nothing fails settles
        the payment, and its answer is the row. */
    method Refresh(key: string, id: string, e: Surroundings) returns (got: Option<PaymentResponse>, ghost read: Table)
      requires Valid() && key in orders && orders[key].id == id && TrimmedKey(key)
      modifies this`orders, router`rows, router`clock, router.cardBreaker, router.bankBreaker
      ensures Valid() && Kept() && Evolves(read, old(router.rows)) && Evolves(router.rows, read)
      ensures router.BreakersRemember()
      ensures got.Some? <==> e.fetched
      ensures got.Some? ==> got.value.key == key && AnswerFits(router.rows, got.value)
      ensures got.Some? ==>
                key in read && (Terminal(read[key].status) || !e.heard ==> got.value == View(key, read[key]))
      ensures e.fetched && e.heard && Healthy(e.router) ==>
                && router.Settled(key, e.router, old(router.cardBreaker.history), old(router.bankBreaker.history))
                && got.value == View(key, router.rows[key])
    {
      hide GoodRows, Evolves, AnswerFits, Accepts, ValidRouterRequest, Canon, OrdersAgree, GoodPayload;
      OtherRequests();
      read := router.rows;
      StillItself(read);
      if !e.fetched {
        return None, read;
      }
      var found := router.Get(id);
      OrderIsFound(router.rows, orders, key, router.clock);
      if found.None? {
        return None, read;
      }
      got := Some(found.value.payment);
      LookupFits(read, key);
      FrozenHasInstrument(read[key]);
      if got.value.status.Pending? && found.value.request.instrument != "" {
        OtherRequests();
        ghost var reposting, card, bank := router.rows, router.cardBreaker.history, router.bankBreaker.history;
        RowSurvives(reposting, read, key);
        var retried := RetryPending(key, found.value.request, e);
        EvolvesTransitive(router.rows, reposting, read);
        AnswerSurvives(router.rows, read, got.value);
        if e.heard && Healthy(e.router) {
          router.SettledSinceEarlier(key, e.router, card, bank, old(router.cardBreaker.history),
              old(router.bankBreaker.history));
        }
        if retried.Some? {
          got := retried;
        }
      }
    }

    method StoreOrder(key: string, o: Order, outcome: Outcome)
      requires Valid() && OrderStands(router.rows, key, o)
      requires key in orders ==> orders[key].id == o.id && orders[key].request == o.request
      modifies this`orders
      ensures Valid() && Kept() && orders == if outcome.NotDone? then old(orders) else old(orders)[key := o]
    {
      hide GoodRows, OrderStands;
      if !outcome.NotDone? {
        orders := orders[key := o];
      }
    }

    ghost predicate Agreed(key: string, r: PublicReply)
      reads this, router
    {
      r.key == key && Agrees(router.rows, key, r.id, r.status, r.gateway, r.ref, r.error)
    }

    /** What a replay of an order that stood as before does and says, when the router's table at its
        lookup was read and the breakers' histories at its start were card and bank. A terminal or
        unread order is answered as it was; otherwise what was read, or settled by a repost of which
        nothing failed, is what the order and the reply say. */
    ghost predicate ReplayDone(before: Order, key: string, e: Surroundings, answer: PublicAnswer,
                               read: Table, card: seq<Event>, bank: seq<Event>)
      reads this, router, router.cardBreaker, router.bankBreaker
    {
      && (if e.stored.Reported? then answer.Told? && Agreed(key, answer.reply) else answer.Failure?)
      && (answer.Told? && (Terminal(before.status) || !e.fetched) ==> TellsOrder(answer.reply, key, before.id, before))
      && (before.status.Pending? && e.fetched ==>
            && key in read && key in orders
            && (answer.Told? ==> TellsOrder(answer.reply, key, orders[key].id, orders[key]))
            && (Terminal(read[key].status) || !e.heard ==>
                 Said(e.stored, orders[key], answer, key, View(key, read[key])))
            && (e.heard && Healthy(e.router) ==>
                  && router.Settled(key, e.router, card, bank)
                  && Said(e.stored, orders[key], answer, key, View(key, router.rows[key]))))
    }

    /** A replay of a known order: a terminal order is answered from the cache, a pending one is
        refreshed, rewritten under the lock and answered with what was written. */
    method Replay(key: string, e: Surroundings) returns (answer: PublicAnswer, ghost read: Table)
      requires Valid() && key in orders && TrimmedKey(key)
      modifies this`orders, router`rows, router`clock, router.cardBreaker, router.bankBreaker
      ensures Valid() && Kept() && Evolves(read, old(router.rows)) && Evolves(router.rows, read)
      ensures Terminal(old(orders)[key].status) ==> orders == old(orders)
      ensures ReplayDone(old(orders)[key], key, e, answer, read,
                         old(router.cardBreaker.history), old(router.bankBreaker.history))
    {
      hide GoodRows, Evolves, AnswerFits, OrdersAgree, SamePayment, router.Settled;
      var order := orders[key];
      read := router.rows;
      StillItself(read);
      OrderFits(router.rows, orders, key);
      if order.status.Pending? {
        var got;
        got, read := Refresh(key, order.id, e);
        if got.Some? {
          OrderFits(router.rows, orders, key);
          RefreshedAgrees(router.rows, key, orders[key], got.value);
          StoreOrder(key, Refreshed(orders[key], got.value), e.stored);
          answer := if e.stored.Reported? then Told(FromRouter(key, got.value)) else Failure;
          return;
        }
        EvolvesTransitive(router.rows, read, old(router.rows));
      }
      OrderSurvives(router.rows, old(router.rows), key, order);
      answer := if e.stored.Reported? then Told(FromOrder(key, order.id, order)) else Failure;
    }

    /** What a first request does and says, when the router answered routed and the orders it found
        when it came to store its own were seen: the answer becomes order and reply unless another
        order stands there, and a post of which nothing fails is paid unless it is turned down. */
    ghost predicate PlaceDone(key: string, request: PublicRequest, e: Surroundings, answer: PublicAnswer,
                              routed: HttpAnswer, seen: map<string, Order>)
      reads this, router
    {
      var stands := e.instrument.Some? && e.heard && routed.Paid? && !Rival(seen, key, routed.payment.id);
      && (answer.Told? <==> stands && e.stored.Reported?)
      && (answer.Told? ==> TellsPayment(answer.reply, key, routed.payment) && Agreed(key, answer.reply))
      && (!answer.Told? ==> answer.Failure?)
      && (if stands && !e.stored.NotDone? then
            && key in orders && orders == seen[key := orders[key]]
            && HoldsPayment(orders[key], routed.payment) && orders[key].id == routed.payment.id
            && orders[key].request == request
          else orders == seen)
      && (routed.Paid? ==>
            && routed.payment.key == key && AnswerFits(router.rows, routed.payment)
            && SamePayment(request, router.rows[key].req))
      && (e.instrument.Some? && Healthy(e.router) && Acceptable(key, Internal(request, e.instrument.value)) ==>
            routed.Paid? || TurnedDown(router.rows, key, Internal(request, e.instrument.value), e.router.id))
    }

    /** A first request: the participants decide the instrument, the router's answer becomes the order
        unless another request got there first. */
    method Place(key: string, request: PublicRequest, e: Surroundings)
      returns (answer: PublicAnswer, ghost routed: HttpAnswer, ghost seen: map<string, Order>)
      requires Valid() && TrimSpace(key) == key
      modifies this`orders, router`rows, router`clock, router.cardBreaker, router.bankBreaker
      ensures Valid() && Kept() && Evolves(router.rows, old(router.rows))
      ensures PlaceDone(key, request, e, answer, routed, seen)
      ensures e.instrument.None? ==> orders == old(orders) && router.rows == old(router.rows)
    {
      hide GoodRows, Evolves, AnswerFits, Accepts, ValidRouterRequest, Canon, OrdersAgree, TurnedDown, Reserved;
      hide SamePayment, StoredAsSent, Payable;
      routed, seen := ServerError, orders;
      if e.instrument.None? {
        StillItself(router.rows);
        return Failure, routed, seen;
      }
      ghost var table, at;
      var reply;
      reply, table, at := router.Create(key, Internal(request, e.instrument.value), e.router);
      routed := reply;
      EvolvesTransitive(router.rows, table, old(router.rows));
      OrdersSurvive(router.rows, old(router.rows), orders);
      WhyTurnedDown(router.rows, table, key, Internal(request, e.instrument.value), e.router, at);
      if reply.Paid? {
        AnswerHasItsRow(router.rows, reply.payment);
        PostedIsSame(router.rows[key].req, request, e.instrument.value);
      }
      if !e.heard || !reply.Paid? {
        return Failure, routed, seen;
      }
      ghost var answered := router.rows;
      OtherRequests();
      seen := orders;
      AnswerSurvives(router.rows, answered, reply.payment);
      RowSurvives(router.rows, answered, key);
      EvolvesTransitive(router.rows, answered, old(router.rows));
      if key in orders || exists k :: k in orders && orders[k].id == reply.payment.id {
        return Failure, routed, seen;
      }
      PlacedAgrees(router.rows, key, request, reply.payment);
      StoreOrder(key, Placed(request, reply.payment), e.stored);
      answer := if e.stored.Reported? then Told(FromRouter(key, reply.payment)) else Failure;
    }

    /** POST. A reply never runs ahead of the router's durable row, and neither does any order; a
        conflict is a different public request under the same key. Otherwise a known order is replayed
        and an unknown one placed, with all that this says. */
    method Create(rawKey: string, request: PublicRequest, e: Surroundings)
      returns (answer: PublicAnswer, ghost read: Table, ghost routed: HttpAnswer, ghost seen: map<string, Order>)
      requires Valid()
      modifies this`orders, router`rows, router`clock, router.cardBreaker, router.bankBreaker
      ensures Valid() && Kept() && Evolves(router.rows, old(router.rows))
      ensures answer.Told? ==> Agreed(TrimSpace(rawKey), answer.reply)
      ensures answer.Told? ==> TrimSpace(rawKey) in orders && orders[TrimSpace(rawKey)].request == request
      ensures !Servable(rawKey, request) ==> answer.Malformed?
      ensures Servable(rawKey, request) ==>
                var key := TrimSpace(rawKey);
                if key !in old(orders) then PlaceDone(key, request, e, answer, routed, seen)
                else if old(orders)[key].request != request then answer.PayloadConflict?
                else
                  && Evolves(read, old(router.rows)) && Evolves(router.rows, read)
                  && (Terminal(old(orders)[key].status) ==> orders == old(orders))
                  && ReplayDone(old(orders)[key], key, e, answer, read,
                                old(router.cardBreaker.history), old(router.bankBreaker.history))
      ensures answer.PayloadConflict? || answer.Malformed? ==> orders == old(orders) && router.rows == old(router.rows)
      ensures Servable(rawKey, request) && TrimSpace(rawKey) !in old(orders) && Healthy(e.router)
              && e.instrument.Some? && ValidInstrument(e.instrument.value) ==>
                routed.Paid? || TurnedDown(router.rows, TrimSpace(rawKey), Internal(request, e.instrument.value),
                    e.router.id)
    {
      hide ValidPublic, GoodRows, Evolves, ValidInstrument, ValidRouterRequest, Canon, Internal, TurnedDown, Accepts;
      hide ReplayDone, PlaceDone;
      read, routed, seen := router.rows, ServerError, orders;
      StillItself(router.rows);
      ServableIffValid(rawKey, request);
      var key := TrimSpace(rawKey);
      TrimIdempotent(rawKey);
      if key == "" || |key| > 255 || !ValidPublic(request) {
        return Malformed, read, routed, seen;
      }
      if key in orders {
        if orders[key].request != request {
          return PayloadConflict, read, routed, seen;
        }
        answer, read := Replay(key, e);
        EvolvesTransitive(router.rows, read, old(router.rows));
        ReplayAgrees(old(orders)[key], key, e, answer, read, old(router.cardBreaker.history),
            old(router.bankBreaker.history));
      } else {
        answer, routed, seen := Place(key, request, e);
        PlaceAgrees(key, request, e, answer, routed, seen);
        if e.instrument.Some? && ValidInstrument(e.instrument.value) {
          PublicIsAcceptable(request, e.instrument.value);
          ValidIffPayable(Internal(request, e.instrument.value));
        }
      }
    }

    lemma ReplayAgrees(before: Order, key: string, e: Surroundings, answer: PublicAnswer,
                       read: Table, card: seq<Event>, bank: seq<Event>)
      requires ReplayDone(before, key, e, answer, read, card, bank)
      ensures if e.stored.Reported? then answer.Told? && Agreed(key, answer.reply) else answer.Failure?
    {
    }

    lemma PlaceAgrees(key: string, request: PublicRequest, e: Surroundings, answer: PublicAnswer,
                      routed: HttpAnswer, seen: map<string, Order>)
      requires PlaceDone(key, request, e, answer, routed, seen)
      ensures if answer.Told? then Agreed(key, answer.reply) else answer.Failure?
      ensures answer.Told? ==> key in orders && orders[key].request == request
      ensures e.instrument.Some? && Healthy(e.router) && Acceptable(key, Internal(request, e.instrument.value)) ==>
                routed.Paid? || TurnedDown(router.rows, key, Internal(request, e.instrument.value), e.router.id)
    {
    }

    /** GET by order id. The answer is the router's row at the lookup, written back without any lock, so
        it may put an older answer over a newer one; still no order and no reply gets ahead of the
        router. Without a lookup the cached order is the answer. */
    method Get(id: string, e: Surroundings) returns (answer: PublicAnswer, ghost read: Table)
      requires Valid()
      modifies this`orders, router`rows, router`clock, router.cardBreaker, router.bankBreaker
      ensures Valid() && Kept() && Evolves(read, old(router.rows)) && Evolves(router.rows, read)
      ensures answer.Unknown? <==> forall k :: k in old(orders) ==> old(orders)[k].id != id
      ensures answer.Unknown? ==> orders == old(orders) && router.rows == old(router.rows)
      ensures !answer.Unknown? ==>
                && answer.Told?
                && var key := answer.reply.key;
                && Agreed(key, answer.reply) && key in old(orders) && old(orders)[key].id == id
                && if !e.fetched then TellsOrder(answer.reply, key, old(orders)[key].paymentId, old(orders)[key])
                   else
                     && key in read && TellsPayment(answer.reply, key, View(key, read[key]))
                     && (!e.stored.NotDone? ==>
                           key in orders && HoldsPayment(orders[key], View(key, read[key])))
    {
      hide GoodRows, Evolves, AnswerFits, OrdersAgree, SamePayment, GoodPayload;
      read := router.rows;
      StillItself(read);
      var matching := set k | k in orders && orders[k].id == id;
      assert forall k :: k in orders && orders[k].id == id ==> k in matching;
      if matching == {} {
        return Unknown, read;
      }
      var key :| key in matching;
      answer, read := ReadThrough(key, e);
    }

    /** The lookup of one order. */
    method ReadThrough(key: string, e: Surroundings) returns (answer: PublicAnswer, ghost read: Table)
      requires Valid() && key in orders
      modifies this`orders, router`rows, router`clock, router.cardBreaker, router.bankBreaker
      ensures Valid() && Kept() && Evolves(read, old(router.rows)) && Evolves(router.rows, read)
      ensures answer.Told? && Agreed(key, answer.reply)
      ensures !e.fetched ==> TellsOrder(answer.reply, key, old(orders)[key].paymentId, old(orders)[key])
      ensures e.fetched ==>
                && key in read && TellsPayment(answer.reply, key, View(key, read[key]))
                && (!e.stored.NotDone? ==> key in orders && HoldsPayment(orders[key], View(key, read[key])))
    {
      hide GoodRows, Evolves, AnswerFits, OrdersAgree, SamePayment, GoodPayload;
      read := router.rows;
      StillItself(read);
      var local := orders[key];
      OrderFits(router.rows, orders, key);
      OtherRequests();
      read := router.rows;
      StillItself(read);
      OrderSurvives(router.rows, old(router.rows), key, local);
      if e.fetched {
        var found := router.Get(local.paymentId);
        OrderIsFound(router.rows, orders, key, router.clock);
        if found.Some? {
          var got := found.value.payment;
          LookupFits(read, key);
          OtherRequests();
          AnswerSurvives(router.rows, read, got);
          OrderFits(router.rows, orders, key);
          RefreshedAgrees(router.rows, key, orders[key], got);
          StoreOrder(key, WrittenBack(orders[key], got), e.stored);
          return Told(FromRouter(key, got)), read;
        }
      }
      answer := Told(FromOrder(key, local.paymentId, local));
    }
  }

  /** A client told of its payment may send the same request again, whatever others do in between: it is
      replayed, never refused as another payload, and answered whenever the commit is. */
  method PostTwice(s: Service, rawKey: string, request: PublicRequest, e1: Surroundings, e2: Surroundings)
    returns (first: PublicAnswer, second: PublicAnswer)
    requires s.Valid()
    modifies s`orders, s.router`rows, s.router`clock, s.router.cardBreaker, s.router.bankBreaker
    ensures s.Valid()
    ensures first.Told? ==> if e2.stored.Reported? then second.Told? else second.Failure?
    ensures first.Told? && second.Told? ==> second.reply.id == first.reply.id && second.reply.key == first.reply.key
    ensures first.Told? && second.Told? && Terminal(first.reply.status) && Terminal(second.reply.status) ==>
              second.reply == first.reply
  {
    ghost var read, routed, seen;
    first, read, routed, seen := s.Create(rawKey, request, e1);
    ghost var told := s.router.rows;
    hide GoodRows, OrdersAgree, Evolves;
    s.OtherRequests();
    ghost var between := s.router.rows;
    second, read, routed, seen := s.Create(rawKey, request, e2);
    if first.Told? {
      ReplyEvolves(between, told, TrimSpace(rawKey), first.reply);
      ReplyEvolves(s.router.rows, between, TrimSpace(rawKey), first.reply);
    }
  }

  lemma ReplyEvolves(later: Table, earlier: Table, key: string, r: PublicReply)
    requires Evolves(later, earlier) && Agrees(earlier, key, r.id, r.status, r.gateway, r.ref, r.error)
    ensures Agrees(later, key, r.id, r.status, r.gateway, r.ref, r.error)
  {
  }

  /** What was learnt of the payment is written, unless the write did not happen, and told, if the
      write was acknowledged. */
  predicate Said(stored: Outcome, o: Order, answer: PublicAnswer, key: string, p: PaymentResponse) {
    && (!stored.NotDone? ==> HoldsPayment(o, p))
    && (answer.Told? ==> TellsPayment(answer.reply, key, p))
  }
}
