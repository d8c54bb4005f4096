/** The router's handlers as they run (cmd/payment-router/main.go:102-305): one request against a
    table other replicas keep changing. Between its own transactions a request assumes of the others
    only what RouterTheorems.StepKeepsInv proves of every step: rows evolve. */
module RouterServer {
  import opened Payments
  import opened Adapters
  import opened PaymentsTable
  import opened CircuitBreaker
  import opened RouterMachine

  datatype HttpAnswer =
    | BadRequest
    | ServerError
    | ConflictAnswer
    | NotFound
    | Paid(payment: PaymentResponse)

  /** What the world decides during one request: whether the lock is granted and the connection kept,
      the clocks, the fresh id, the fate of the two writes, and the provider's answer. */
  datatype World = World(
    locked: bool, connected: bool, delay: nat, ahead: int, id: string, reservation: Outcome,
    askedAt: int, answer: Answer, answeredAt: int, result: Outcome)

  /** Nothing fails on the router's side. */
  predicate Healthy(w: World) { w.locked && w.connected && w.reservation.Reported? && w.result.Reported? }

  predicate Acceptable(rawKey: string, req: RouterPaymentRequest) {
    1 <= |TrimSpace(rawKey)| <= 255 && Payable(req)
  }

  /** Another row has the id the insert would take. */
  predicate IdTaken(t: Table, id: string) { exists k :: k in t && t[k].id == id }

  /** The reservation in plain terms: which of the four decisions it takes, and what it writes. */
  predicate ReservedAsAsked(before: Table, after: Table, key: string, req: RouterPaymentRequest, d: Decision,
                            idTaken: bool, delay: nat, ahead: int, id: string, outcome: Outcome, now: int) {
    && (if key !in before then d.Fresh?
        else if !StoredAsSent(before[key].req, req) then d.Conflict?
        else if Terminal(before[key].status) || now + ahead - before[key].updatedAt < delay then d.Replayed?
        else d.Claim?)
    && (d.Conflict? || d.Replayed? || idTaken || outcome.NotDone? ==> after == before)
    && (d.Fresh? && !idTaken && !outcome.NotDone? ==>
          key in after && after == before[key := after[key]] && FreshRow(after[key], id, req, now))
    && (d.Claim? && !outcome.NotDone? ==>
          key in before && key in after && after == before[key := after[key]] && Claimed(after[key], before[key], now))
  }

  predicate GoodRows(t: Table, clock: int) {
    GoodTable(t, clock) && forall k :: k in t ==> GoodPayload(t[k])
  }

  /** Since the history was since, the breaker has refused a call asked for at instant now. */
  ghost predicate RefusedSince(since: seq<Event>, history: seq<Event>, threshold: int, cooldown: int, now: int) {
    exists h :: since <= h && h + [AllowAt(now)] <= history && !Allowed(Run(h, threshold, cooldown), cooldown, now)
  }

  /** Since then it has let such a call through, and the call has reported. */
  ghost predicate CalledSince(since: seq<Event>, history: seq<Event>, threshold: int, cooldown: int, now: int,
                              report: Event) {
    exists h, m :: since <= h && h + [AllowAt(now)] <= m && m + [report] <= history
        && Allowed(Run(h, threshold, cooldown), cooldown, now)
  }

  /** What the adapter's result makes the breaker hear: only an uncertain one counts against it. */
  function Report(heard: ProviderResult, at: int): Event { if heard.status.Pending? then FailureAt(at) else Cleared }

  class Server {
    var rows: Table
    var clock: int
    const cardBreaker: Circuit
    const bankBreaker: Circuit
    const breakerEnabled: bool

    ghost predicate Valid()
      reads this, cardBreaker, bankBreaker
    {
      GoodRows(rows, clock) && cardBreaker.Valid() && bankBreaker.Valid()
    }

    constructor (cardBreaker: Circuit, bankBreaker: Circuit, breakerEnabled: bool)
      requires cardBreaker.Valid() && bankBreaker.Valid()
      ensures Valid() && rows == map[]
      ensures this.cardBreaker == cardBreaker && this.bankBreaker == bankBreaker
              && this.breakerEnabled == breakerEnabled
    {
      rows, clock := map[], 0;
      this.cardBreaker, this.bankBreaker, this.breakerEnabled := cardBreaker, bankBreaker, breakerEnabled;
    }

    /** Whatever other attempts do while this one waits. As long as this one keeps its lock they leave
        its reserved row alone (RouterTheorems.HoldersRowIsUntouched). */
    method OtherAttempts(key: string, mine: bool)
      requires Valid()
      modifies this`rows, this`clock, cardBreaker, bankBreaker
      ensures Valid() && Evolves(rows, old(rows)) && BreakersRemember()
      ensures mine && key in old(rows) ==> rows[key] == old(rows)[key]
    {
      StillItself(rows);
    }

    /** The breakers' histories only grow. */
    twostate predicate BreakersRemember()
      reads this, cardBreaker, bankBreaker
    {
      old(cardBreaker.history) <= cardBreaker.history && old(bankBreaker.history) <= bankBreaker.history
    }

    /** The reservation transaction. idTaken reports the primary key refusing a duplicate id. */
    method Reserve(key: string, req: RouterPaymentRequest, delay: nat, ahead: int, id: string, outcome: Outcome)
      returns (d: Decision, idTaken: bool)
      requires Valid() && ValidRouterRequest(Canon(req))
      modifies this`rows, this`clock
      ensures Valid() && clock == old(clock) + 1
      ensures d == Decide(old(rows), key, req, delay, clock + ahead)
      ensures idTaken <==> d.Fresh? && IdTaken(old(rows), id)
      ensures rows == if idTaken || outcome.NotDone? then old(rows) else Reserved(old(rows), key, req, d, id, clock)
      ensures ReservedAsAsked(old(rows), rows, key, req, d, idTaken, delay, ahead, id, outcome, clock)
    {
      hide ValidRouterRequest, Canon, Accepts, NewRow, GoodRows, ReservedAsAsked;
      ReservationSpelledOut(rows, key, req, delay, ahead, id, outcome, clock, clock + 1);
      clock := clock + 1;
      idTaken := false;
      ClockMoves(rows, clock - 1, clock);
      var reserved := rows;
      if key in rows {
        var existing := rows[key];
        if !Accepts(existing.digest, req) {
          d := Conflict;
          return;
        }
        if existing.status.Pending? && clock + ahead - existing.updatedAt >= delay {
          d := Claim;
          reserved := rows[key := existing.(error := "recovering payment", updatedAt := clock)];
        } else {
          d := Replayed;
          return;
        }
      } else {
        d := Fresh;
        idTaken := exists k :: k in rows && rows[k].id == id;
        if idTaken {
          return;
        }
        reserved := rows[key := NewRow(id, req, clock)];
      }
      ReservedKeepsRows(rows, key, req, d, delay, clock + ahead, id, clock - 1, clock);
      if !outcome.NotDone? {
        rows := reserved;
      }
    }

    /** The fenced write: it reports success only when it changed exactly one row and said so. */
    method PersistResult(id: string, result: ProviderResult, lease: int, outcome: Outcome) returns (ok: bool)
      requires Valid()
      modifies this`rows, this`clock
      ensures Valid() && clock == old(clock) + 1
      ensures rows == if outcome.NotDone? then old(rows) else FencedWrite(old(rows), id, lease, result, clock)
      ensures ok <==> outcome.Reported? && exists k :: Affected(old(rows), id, lease) == {k}
      ensures rows.Keys == old(rows).Keys
      ensures forall k :: k in rows ==>
                var was := old(rows)[k];
                if was.id == id && was.status.Pending? && was.updatedAt == lease && !outcome.NotDone? then
                  && SameFrozen(rows[k], was) && rows[k].updatedAt == clock
                  && rows[k].status == result.status && rows[k].ref == result.ref && rows[k].error == result.error
                else rows[k] == was
    {
      FencedWriteSpelledOut(rows, id, lease, result, clock + 1);
      hide FencedWrite, Affected, GoodRows;
      clock := clock + 1;
      ClockMoves(rows, clock - 1, clock);
      FencedWriteKeepsRows(rows, id, lease, result, clock - 1, clock);
      var affected := Affected(rows, id, lease);
      SingletonIff(affected);
      if !outcome.NotDone? {
        rows := FencedWrite(rows, id, lease, result, clock);
      }
      ok := outcome.Reported? && |affected| == 1;
    }

    function Breaker(g: GatewayName): Circuit {
      match g case GatewayCard => cardBreaker case GatewayBank => bankBreaker
    }

    /** One provider attempt; others go on while the provider thinks. Each call the breaker lets through
        reports to it exactly once, after whatever the others made it hear; a refused call reports
        nothing and sends nothing. */
    method Charge(key: string, mine: bool, g: GatewayName, askedAt: int, answer: Answer, answeredAt: int)
      returns (r: ProviderResult, ghost meanwhile: seq<Event>)
      requires Valid()
      modifies this`rows, this`clock, cardBreaker, bankBreaker
      ensures Valid() && Evolves(rows, old(rows)) && BreakersRemember()
      ensures mine && key in old(rows) ==> rows[key] == old(rows)[key]
      ensures var b, heard := Breaker(g), CallProvider(g, answer);
              var asked := old(b.history) + [AllowAt(askedAt)];
              if breakerEnabled && !Allowed(Run(old(b.history), b.threshold, b.cooldown), b.cooldown, askedAt)
              then
                && r == CIRCUIT_OPEN && b.history == asked && rows == old(rows)
                && r.status.Pending? && r.ref == "" && r.error == "gateway circuit open"
              else r == heard
                   && (breakerEnabled ==> asked <= meanwhile && b.history == meanwhile + [Report(heard, answeredAt)])
      ensures var b := Breaker(g);
              breakerEnabled && Allowed(Run(old(b.history), b.threshold, b.cooldown), b.cooldown, askedAt) ==>
                if Terminal(r.status) then b.failures == 0 && b.openedAt.None? && b.history == meanwhile + [Cleared]
                else
                  && b.history == meanwhile + [FailureAt(answeredAt)]
                  && Recent(b.history, b.threshold, b.cooldown) == Recent(meanwhile, b.threshold, b.cooldown)
                     + [answeredAt]
    {
      hide GoodRows, CallProvider, Run, Evolves, Recent;
      StillItself(rows);
      meanwhile := Breaker(g).history;
      var allowed := true;
      if breakerEnabled {
        allowed := Breaker(g).Allow(askedAt);
      }
      if !allowed {
        return CIRCUIT_OPEN, meanwhile;
      }
      OtherAttempts(key, mine);
      meanwhile := Breaker(g).history;
      r := CallProvider(g, answer);
      if breakerEnabled {
        OneMoreEvent(meanwhile, answeredAt, Breaker(g).threshold, Breaker(g).cooldown);
        if r.status.Pending? {
          Breaker(g).Failure(answeredAt);
        } else {
          Breaker(g).Success();
        }
      }
    }

    /** The row of a request that was charged and recorded since the breakers' histories were card and
        bank: the provider's verdict, of a call that the breaker let through and heard of, or the
        refusal the breaker really gave. */
    ghost predicate Recorded(key: string, w: World, card: seq<Event>, bank: seq<Event>)
      reads this, cardBreaker, bankBreaker
      requires key in rows
    {
      var g := rows[key].gateway;
      var b, since, result := Breaker(g), if g.GatewayCard? then card else bank, CallProvider(g, w.answer);
      || (RowResult(rows[key]) == result
          && (breakerEnabled ==>
                CalledSince(since, b.history, b.threshold, b.cooldown, w.askedAt, Report(result, w.answeredAt))))
      || (breakerEnabled && RowResult(rows[key]) == CIRCUIT_OPEN
          && RefusedSince(since, b.history, b.threshold, b.cooldown, w.askedAt))
    }

    lemma RecordedSinceEarlier(key: string, w: World, card: seq<Event>, bank: seq<Event>, card': seq<Event>,
                               bank': seq<Event>)
      requires key in rows && Recorded(key, w, card, bank) && card' <= card && bank' <= bank
      ensures Recorded(key, w, card', bank')
    {
      var g := rows[key].gateway;
      var b, report := Breaker(g), Report(CallProvider(g, w.answer), w.answeredAt);
      SinceEarlier(if g.GatewayCard? then card' else bank', if g.GatewayCard? then card else bank,
                   b.history, b.threshold, b.cooldown, w.askedAt, report);
      hide RefusedSince, CalledSince, CallProvider, Report;
    }

    /** What a charge leaves in the breaker, seen from a later history. */
    lemma ChargeIsRemembered(g: GatewayName, before: seq<Event>, meanwhile: seq<Event>, after: seq<Event>, w: World)
      requires after <= Breaker(g).history
      requires var b := Breaker(g);
               if !Allowed(Run(before, b.threshold, b.cooldown), b.cooldown, w.askedAt)
                   then after == before + [AllowAt(w.askedAt)]
               else before + [AllowAt(w.askedAt)] <= meanwhile
                    && after == meanwhile + [Report(CallProvider(g, w.answer), w.answeredAt)]
      ensures var b := Breaker(g);
              if !Allowed(Run(before, b.threshold, b.cooldown), b.cooldown, w.askedAt)
              then RefusedSince(before, b.history, b.threshold, b.cooldown, w.askedAt)
              else CalledSince(before, b.history, b.threshold, b.cooldown, w.askedAt,
                  Report(CallProvider(g, w.answer), w.answeredAt))
    {
      hide Run, CallProvider, Report;
    }

    /** The charge as it ended up in the row. */
    lemma ChargeIsRecorded(key: string, w: World, g: GatewayName, asking: seq<Event>, meanwhile: seq<Event>,
                           charged: seq<Event>, result: ProviderResult, card: seq<Event>, bank: seq<Event>)
      requires key in rows && rows[key].gateway == g && RowResult(rows[key]) == result
      requires charged <= Breaker(g).history && (if g.GatewayCard? then card else bank) <= asking
      requires var b, heard := Breaker(g), CallProvider(g, w.answer);
               if breakerEnabled && !Allowed(Run(asking, b.threshold, b.cooldown), b.cooldown, w.askedAt)
               then result == CIRCUIT_OPEN && charged == asking + [AllowAt(w.askedAt)]
               else result == heard
                    && (breakerEnabled ==>
                          asking + [AllowAt(w.askedAt)] <= meanwhile
                              && charged == meanwhile + [Report(heard, w.answeredAt)])
      ensures Recorded(key, w, card, bank)
    {
      hide Run, CallProvider, Report, RefusedSince, CalledSince;
      var b := Breaker(g);
      if breakerEnabled {
        ChargeIsRemembered(g, asking, meanwhile, charged, w);
        SinceEarlier(if g.GatewayCard? then card else bank, asking, b.history, b.threshold, b.cooldown, w.askedAt,
                     Report(CallProvider(g, w.answer), w.answeredAt));
      }
    }

    /** The second half of POST, from the committed reservation to the answer. With the connection
        kept and the write reported, the breaker's refusal or the provider's verdict becomes the row
        and the answer; otherwise a terminal answer is still the row. */
    method Settle(key: string, ticket: Ticket, w: World) returns (answer: HttpAnswer)
      requires Valid() && key in rows && ticket == TicketOf(rows[key]) && rows[key].status.Pending?
      modifies this`rows, this`clock, cardBreaker, bankBreaker
      ensures Valid() && Evolves(rows, old(rows)) && BreakersRemember()
      ensures answer.Paid? && answer.payment.key == key && AnswerFits(rows, answer.payment)
      ensures w.connected && w.result.Reported? ==>
                answer.payment == View(key, rows[key])
                && Recorded(key, w, old(cardBreaker.history), old(bankBreaker.history))
      ensures !w.result.Reported? ==>
                && answer.payment.status.Pending? && answer.payment.error == "payment result persistence unavailable"
                && (!breakerEnabled ==> answer.payment.ref == CallProvider(ticket.gateway, w.answer).ref)
    {
      hide CallProvider, GoodRows, Evolves, FencedWrite, Affected, AnswerFits, Run, Report, Recorded, Allowed;
      ghost var card, bank := cardBreaker.history, bankBreaker.history;
      OtherAttempts(key, w.connected);
      ghost var second, asking := rows, Breaker(ticket.gateway).history;
      var result; ghost var meanwhile;
      result, meanwhile := Charge(key, w.connected, ticket.gateway, w.askedAt, w.answer, w.answeredAt);
      EvolvesTransitive(rows, second, old(rows));
      ghost var third, charged := rows, Breaker(ticket.gateway).history;
      OtherAttempts(key, w.connected);
      EvolvesTransitive(rows, third, old(rows));
      ghost var fourth, before := rows, clock;
      var ok := PersistResult(ticket.id, result, ticket.lease, w.result);
      answer := Paid(Answered(key, ticket, if ok then result else Unrecorded(result)));
      FencedWriteKeepsRows(fourth, ticket.id, ticket.lease, result, before, clock);
      StillItself(fourth);
      EvolvesTransitive(rows, fourth, old(rows));
      TicketStillFits(fourth, old(rows), key);
      AnswerOfWrite(fourth, rows, before, key, ticket, result, w.result, ok, clock);
      if w.connected && w.result.Reported? {
        ChargeIsRecorded(key, w, ticket.gateway, asking, meanwhile, charged, result, card, bank);
      }
    }

    /** POST, exactly. seen is the table the reservation transaction finds at instant at: a bad request
        changes nothing; a different request under the key conflicts; a finished or fresh payment is
        answered as it stands; a new or stale one is reserved, called and answered, and the answer is
        the recorded verdict when nothing failed, and never a final result that is not the row. */
    method Create(rawKey: string, req: RouterPaymentRequest, w: World)
      returns (answer: HttpAnswer, ghost seen: Table, ghost at: int)
      requires Valid()
      modifies this`rows, this`clock, cardBreaker, bankBreaker
      ensures Valid() && Evolves(seen, old(rows)) && Evolves(rows, seen) && BreakersRemember()
      ensures answer.BadRequest? <==> !Acceptable(rawKey, req)
      ensures answer.BadRequest? || !w.locked ==> rows == old(rows)
      ensures Acceptable(rawKey, req) && !w.locked ==> answer.ServerError?
      ensures Acceptable(rawKey, req) && w.locked ==>
                var key, card, bank := TrimSpace(rawKey), old(cardBreaker.history), old(bankBreaker.history);
                match Decide(seen, key, req, w.delay, at + w.ahead)
                case Conflict => answer.ConflictAnswer?
                case Replayed => answer == if w.reservation.Reported? then Paid(View(key, seen[key])) else ServerError
                case Claim => if w.reservation.Reported? then Charged(key, w, answer, card, bank)
                    else answer.ServerError?
                case Fresh =>
                  if w.reservation.Reported? && !IdTaken(seen, w.id) then Charged(key, w, answer, card, bank)
                  else answer.ServerError?
      ensures Acceptable(rawKey, req) && w.locked ==>
                var d := Decide(seen, TrimSpace(rawKey), req, w.delay, at + w.ahead);
                !answer.Paid? || d.Replayed? ==>
                  clock == at && rows == if w.reservation.NotDone? || (d.Fresh? && IdTaken(seen, w.id)) then seen
                                         else Reserved(seen, TrimSpace(rawKey), req, d, w.id, at)
      ensures answer.Paid? ==> answer.payment.key == TrimSpace(rawKey) && AnswerFits(rows, answer.payment)
      ensures answer.ConflictAnswer? <==>
                Acceptable(rawKey, req) && w.locked
                && TrimSpace(rawKey) in seen && !StoredAsSent(seen[TrimSpace(rawKey)].req, req)
      ensures answer.Paid? ==>
                var row := rows[TrimSpace(rawKey)];
                && StoredAsSent(row.req, req) && (row.gateway.GatewayBank? <==> row.req.instrument == "bank_transfer")
                && (TrimSpace(rawKey) !in seen ==>
                      row.id == w.id && row.createdAt == at && row.digest == Digest(row.req))
    {
      ValidIffPayable(req);
      hide ValidRouterRequest, Canon, Accepts, CallProvider, GoodRows, AnswerFits, Recorded, IdTaken;
      hide Payable, StoredAsSent;
      seen, at := rows, clock;
      StillItself(rows);
      var key := TrimSpace(rawKey);
      if key == "" || |key| > 255 || !ValidRouterRequest(Canon(req)) {
        return BadRequest, seen, at;
      }
      if !w.locked {
        return ServerError, seen, at;
      }
      OtherAttempts(key, false);
      seen, at := rows, clock + 1;
      StillItself(rows);
      var d, idTaken := Reserve(key, req, w.delay, w.ahead, w.id, w.reservation);
      ReservationEvolves(seen, rows, key, req, d, idTaken, w, at);
      RoutedAsStored(rows, clock, key);
      if d.Conflict? {
        return ConflictAnswer, seen, at;
      }
      if idTaken || !w.reservation.Reported? {
        return ServerError, seen, at;
      }
      if d.Replayed? {
        return Paid(View(key, rows[key])), seen, at;
      }
      ghost var reserved, card, bank := rows, cardBreaker.history, bankBreaker.history;
      answer := Settle(key, TicketOf(rows[key]), w);
      EvolvesTransitive(rows, reserved, seen);
      TicketStillFits(rows, reserved, key);
      if w.connected && w.result.Reported? {
        RecordedSinceEarlier(key, w, card, bank, old(cardBreaker.history), old(bankBreaker.history));
      }
    }

    /** What a charged request answers. */
    ghost predicate Charged(key: string, w: World, answer: HttpAnswer, card: seq<Event>, bank: seq<Event>)
      reads this, cardBreaker, bankBreaker
    {
      answer.Paid? && key in rows
      && (w.connected && w.result.Reported? ==> answer.payment == View(key, rows[key]) && Recorded(key, w, card, bank))
    }

    /** What a healthy request leaves behind: the payment is final, or not yet due for recovery, or
        was charged and recorded by this very request. */
    ghost predicate Settled(key: string, w: World, card: seq<Event>, bank: seq<Event>)
      reads this, cardBreaker, bankBreaker
    {
      && key in rows
      && (|| Terminal(rows[key].status) || clock + w.ahead - rows[key].updatedAt < w.delay
          || Recorded(key, w, card, bank))
    }

    lemma SettledSinceEarlier(key: string, w: World, card: seq<Event>, bank: seq<Event>, card': seq<Event>,
                              bank': seq<Event>)
      requires Settled(key, w, card, bank) && card' <= card && bank' <= bank
      ensures Settled(key, w, card', bank')
    {
      hide Recorded;
      if Recorded(key, w, card, bank) {
        RecordedSinceEarlier(key, w, card, bank, card', bank');
      }
    }

    /** GET by id: the row as it stands, with its frozen request. */
    method Get(id: string) returns (found: Option<Lookup>)
      requires Valid()
      ensures found.None? <==> forall k :: k in rows ==> rows[k].id != id
      ensures found.Some? ==> found.value.payment.key in rows && found.value.payment.id == id
                              && found.value == LookupOf(found.value.payment.key, rows[found.value.payment.key])
      ensures found.Some? ==>
                var Lookup(p, request) := found.value;
                var row := rows[p.key];
                && request == row.req && p.id == row.id && p.status == row.status && p.gateway == row.gateway
                && p.ref == row.ref && p.error == row.error && p.createdAt == row.createdAt
    {
      var matching := set k | k in rows && rows[k].id == id;
      assert forall k :: k in rows && rows[k].id == id ==> k in matching;
      if matching == {} {
        return None;
      }
      var key :| key in matching;
      found := Some(LookupOf(key, rows[key]));
    }
  }

  /******* What the handlers rest on *******/

  lemma SinceEarlier(earlier: seq<Event>, since: seq<Event>, history: seq<Event>, threshold: int, cooldown: int,
                     now: int, report: Event)
    requires earlier <= since
    ensures RefusedSince(since, history, threshold, cooldown, now) ==>
              RefusedSince(earlier, history, threshold, cooldown, now)
    ensures CalledSince(since, history, threshold, cooldown, now, report) ==>
              CalledSince(earlier, history, threshold, cooldown, now, report)
  {
    hide Run;
    if RefusedSince(since, history, threshold, cooldown, now) {
      var h :| since <= h && h + [AllowAt(now)] <= history && !Allowed(Run(h, threshold, cooldown), cooldown, now);
      assert earlier <= h;
    }
    if CalledSince(since, history, threshold, cooldown, now, report) {
      var h, m :| since <= h && h + [AllowAt(now)] <= m && m + [report] <= history
          && Allowed(Run(h, threshold, cooldown), cooldown, now);
      assert earlier <= h;
    }
  }

  lemma SingletonIff(s: set<string>)
    ensures |s| == 1 <==> exists k :: s == {k}
  {
    if |s| == 1 {
      var k :| k in s;
      assert |s - {k}| == 0;
      assert s == {k};
    }
  }

  lemma StillItself(t: Table)
    ensures Evolves(t, t)
  {
  }

  lemma ClockMoves(t: Table, clock: int, now: int)
    requires GoodRows(t, clock) && clock <= now
    ensures GoodRows(t, now)
  {
  }

  lemma ReservedKeepsRows(t: Table, key: string, req: RouterPaymentRequest, d: Decision, delay: nat, routerNow: int,
                          id: string, clock: int, now: int)
    requires GoodRows(t, clock) && clock < now && ValidRouterRequest(Canon(req))
    requires d == Decide(t, key, req, delay, routerNow)
    requires d.Fresh? ==> !IdTaken(t, id)
    ensures GoodRows(Reserved(t, key, req, d, id, now), now)
  {
    ReservedKeepsTable(t, key, req, d, delay, routerNow, id, clock, now);
    NewRowPayload(id, req, now);
    hide GoodTable, ValidRouterRequest, Canon, Canonical, Accepts, NewRow, Evolves, GatewayFor, RequestHash;
  }

  lemma FencedWriteKeepsRows(t: Table, id: string, lease: int, result: ProviderResult, clock: int, now: int)
    requires GoodRows(t, clock) && clock < now
    ensures GoodRows(FencedWrite(t, id, lease, result, now), now) && Evolves(FencedWrite(t, id, lease, result, now), t)
  {
    hide Canonical, GatewayFor, RequestHash;
  }

  /** What a claim leaves of a stale row: everything but the note and the lease. */
  predicate Claimed(row: Row, was: Row, now: int) {
    && SameFrozen(row, was) && row.status == was.status && row.ref == was.ref
    && row.error == "recovering payment" && row.updatedAt == now
  }

  lemma ReservationSpelledOut(t: Table, key: string, req: RouterPaymentRequest, delay: nat, ahead: int, id: string,
                              outcome: Outcome, clock: int, now: int)
    requires GoodRows(t, clock) && ValidRouterRequest(Canon(req))
    ensures var d := Decide(t, key, req, delay, now + ahead);
            var idTaken := d.Fresh? && IdTaken(t, id);
            var t' := if idTaken || outcome.NotDone? then t else Reserved(t, key, req, d, id, now);
            ReservedAsAsked(t, t', key, req, d, idTaken, delay, ahead, id, outcome, now)
  {
    hide GoodRows, GoodPayload, StoredAsSent, ValidRouterRequest, Canon, FreshRow, Claimed, NewRow, Decide, Reserved;
    GoodRowPayload(t, clock, key);
    DecisionSpelledOut(t, key, req, delay, now + ahead);
    NewRowPayload(id, req, now);
    ReservedSpelledOut(t, key, req, delay, now + ahead, id, now);
  }

  lemma GoodRowPayload(t: Table, clock: int, key: string)
    requires GoodRows(t, clock)
    ensures key in t ==> GoodPayload(t[key])
  {
  }

  lemma ReservedSpelledOut(t: Table, key: string, req: RouterPaymentRequest, delay: nat, routerNow: int, id: string,
                           now: int)
    ensures var d := Decide(t, key, req, delay, routerNow);
            var t' := Reserved(t, key, req, d, id, now);
            && (d.Conflict? || d.Replayed? ==> t' == t)
            && (d.Fresh? ==> t' == t[key := NewRow(id, req, now)])
            && (d.Claim? ==> key in t && key in t' && t' == t[key := t'[key]] && Claimed(t'[key], t[key], now))
  {
    hide Accepts, NewRow;
  }

  /** Every row is on the gateway of its instrument. */
  lemma RoutedAsStored(t: Table, clock: int, key: string)
    requires GoodRows(t, clock)
    ensures key in t ==> (t[key].gateway.GatewayBank? <==> t[key].req.instrument == "bank_transfer")
  {
    if key in t {
      BankIsBankTransfer(t[key].req.instrument);
    }
  }

  lemma FencedWriteSpelledOut(t: Table, id: string, lease: int, result: ProviderResult, now: int)
    ensures var t' := FencedWrite(t, id, lease, result, now);
            && t'.Keys == t.Keys
            && forall k :: k in t' ==>
                 if t[k].id == id && t[k].status.Pending? && t[k].updatedAt == lease then
                   && SameFrozen(t'[k], t[k]) && t'[k].updatedAt == now
                   && t'[k].status == result.status && t'[k].ref == result.ref && t'[k].error == result.error
                 else t'[k] == t[k]
  {
  }

  lemma OneMoreEvent(h: seq<Event>, now: int, threshold: int, cooldown: int)
    ensures Recent(h + [FailureAt(now)], threshold, cooldown) == Recent(h, threshold, cooldown) + [now]
    ensures Run(h + [Cleared], threshold, cooldown) == CLOSED
  {
    assert (h + [FailureAt(now)])[..|h|] == h && (h + [Cleared])[..|h|] == h;
  }

  /** The reservation as the caller sees it. */
  lemma ReservationEvolves(t: Table, t': Table, key: string, req: RouterPaymentRequest, d: Decision, idTaken: bool,
                           w: World, now: int)
    requires d == Decide(t, key, req, w.delay, now + w.ahead)
    requires idTaken <==> d.Fresh? && IdTaken(t, w.id)
    requires t' == if idTaken || w.reservation.NotDone? then t else Reserved(t, key, req, d, w.id, now)
    requires exists clock :: clock < now && GoodRows(t, clock)
    ensures Evolves(t', t)
    ensures (d.Claim? || d.Fresh?) && !idTaken && w.reservation.Reported? ==> key in t' && t'[key].status.Pending?
    ensures d.Conflict? || d.Replayed? ==> t' == t && key in t
    ensures d.Replayed? ==> AnswerFits(t', View(key, t'[key]))
  {
    var clock :| clock < now && GoodRows(t, clock);
    assert GoodTable(t, clock);
    hide GoodTable, GoodRows, Accepts, NewRow, GoodPayload;
    StillItself(t);
    if !idTaken {
      ReservedKeepsTable(t, key, req, d, w.delay, now + w.ahead, w.id, clock, now);
    }
  }

  lemma TicketStillFits(later: Table, earlier: Table, key: string)
    requires Evolves(later, earlier) && key in earlier
    ensures key in later && SameFrozen(later[key], earlier[key])
  {
  }

  /** The answer after a fenced write: the row itself if the write was the one that finished it, and
      no final result otherwise. */
  lemma AnswerOfWrite(t: Table, t': Table, clock: int, key: string, ticket: Ticket, result: ProviderResult,
                      outcome: Outcome, ok: bool, now: int)
    requires GoodRows(t, clock) && key in t
    requires ticket.id == t[key].id && ticket.gateway == t[key].gateway && ticket.createdAt == t[key].createdAt
    requires t' == if outcome.NotDone? then t else FencedWrite(t, ticket.id, ticket.lease, result, now)
    requires ok <==> outcome.Reported? && exists k :: Affected(t, ticket.id, ticket.lease) == {k}
    ensures var ans := Answered(key, ticket, if ok then result else Unrecorded(result));
            && AnswerFits(t', ans)
            && (outcome.Reported? && Fenced(t[key], ticket.id, ticket.lease) ==>
                  key in t' && ans == View(key, t'[key]) && RowResult(t'[key]) == result
                      && t'[key].gateway == ticket.gateway)
  {
    assert UniqueIds(t);
    hide GoodRows, GoodPayload, UniqueIds, FencedWrite, Affected, AnswerFits;
    FencedWriteIsOneRow(t, key, ticket.lease, result, now);
    if Fenced(t[key], ticket.id, ticket.lease) {
      assert ok <==> outcome.Reported?;
      FinishedAnswerFits(t, key, ticket, result, now);
    } else {
      assert !ok;
    }
    PendingAnswerFits(t, key, ticket, Unrecorded(result));
    PendingAnswerFits(t[key := Finished(t[key], result, now)], key, ticket, Unrecorded(result));
  }

  lemma FinishedAnswerFits(t: Table, key: string, ticket: Ticket, result: ProviderResult, now: int)
    requires key in t
    requires ticket.id == t[key].id && ticket.gateway == t[key].gateway && ticket.createdAt == t[key].createdAt
    ensures var t' := t[key := Finished(t[key], result, now)];
            AnswerFits(t', Answered(key, ticket, result)) && Answered(key, ticket, result) == View(key, t'[key])
  {
  }

  lemma PendingAnswerFits(t: Table, key: string, ticket: Ticket, result: ProviderResult)
    requires key in t && result.status.Pending?
    requires ticket.id == t[key].id && ticket.gateway == t[key].gateway && ticket.createdAt == t[key].createdAt
    ensures AnswerFits(t, Answered(key, ticket, result))
  {
  }
}
