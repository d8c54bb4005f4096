/** The router's payments table and the two transactions that change it: the reservation and the
    fenced result write (cmd/payment-router/main.go:164-220, 244-258; internal/payments/db.go:45). */
module PaymentsTable {
  import opened Payments
  import opened Adapters
  import Replay

  /** A row. Only status, ref, error and updatedAt ever change; updatedAt is the recovery lease. */
  datatype Row = Row(
    id: string, digest: Digest, req: RouterPaymentRequest, gateway: GatewayName,
    status: Status, ref: string, error: string, createdAt: int, updatedAt: int)

  type Table = map<string, Row>

  datatype PaymentResponse = PaymentResponse(
    id: string, key: string, status: Status, gateway: GatewayName, ref: string, error: string, createdAt: int)

  function View(key: string, row: Row): PaymentResponse {
    PaymentResponse(row.id, key, row.status, row.gateway, row.ref, row.error, row.createdAt)
  }

  /** What a lookup returns: the row's result and its frozen request. */
  datatype Lookup = Lookup(payment: PaymentResponse, request: RouterPaymentRequest)

  function LookupOf(key: string, row: Row): Lookup { Lookup(View(key, row), row.req) }

  datatype Decision = Conflict | Replayed | Claim | Fresh

  function Decide(t: Table, key: string, req: RouterPaymentRequest, delay: nat, routerNow: int): Decision {
    if key !in t then Fresh
    else if !Accepts(t[key].digest, req) then Conflict
    else if t[key].status.Pending? && routerNow - t[key].updatedAt >= delay then Claim
    else Replayed
  }

  function NewRow(id: string, req: RouterPaymentRequest, now: int): Row {
    var c := Canon(req);
    Row(id, RequestHash(c), Columns(c), GatewayFor(c.instrument), Pending, "", "", now, now)
  }

  /** The table once the reservation has committed. */
  function Reserved(t: Table, key: string, req: RouterPaymentRequest, d: Decision, id: string, now: int): Table
    requires d.Claim? ==> key in t
  {
    match d
    case Fresh => t[key := NewRow(id, req, now)]
    case Claim => t[key := t[key].(error := "recovering payment", updatedAt := now)]
    case _ => t
  }

  predicate Fenced(row: Row, id: string, lease: int) {
    row.id == id && row.status.Pending? && row.updatedAt == lease
  }

  function Finished(row: Row, result: ProviderResult, now: int): Row {
    row.(status := result.status, ref := result.ref, error := result.error, updatedAt := now)
  }

  function RowResult(row: Row): ProviderResult { ProviderResult(row.status, row.ref, row.error) }

  /** The keys the fenced write would touch. */
  function Affected(t: Table, id: string, lease: int): set<string> {
    set k | k in t && Fenced(t[k], id, lease)
  }

  function FencedWrite(t: Table, id: string, lease: int, result: ProviderResult, now: int): Table {
    map k | k in t :: if Fenced(t[k], id, lease) then Finished(t[k], result, now) else t[k]
  }

  /** id is the primary key. */
  predicate UniqueIds(t: Table) {
    forall j, k :: j in t && k in t && t[j].id == t[k].id ==> j == k
  }

  /** The frozen columns are a canonical request, its digest and its gateway. */
  predicate GoodPayload(row: Row) {
    row.digest == RequestHash(row.req) && Canonical(row.req) && row.gateway == GatewayFor(row.req.instrument)
  }

  predicate SameFrozen(a: Row, b: Row) {
    a.id == b.id && a.digest == b.digest && a.req == b.req && a.gateway == b.gateway && a.createdAt == b.createdAt
  }

  /** Rows never disappear, frozen columns and terminal rows never change, leases only grow. */
  predicate Evolves(later: Table, earlier: Table) {
    forall k :: k in earlier ==>
      && k in later
      && SameFrozen(later[k], earlier[k])
      && (Terminal(earlier[k].status) ==> later[k] == earlier[k])
      && earlier[k].updatedAt <= later[k].updatedAt
  }

  lemma EvolvesTransitive(c: Table, b: Table, a: Table)
    requires Evolves(c, b) && Evolves(b, a)
    ensures Evolves(c, a)
  {
  }

  predicate GoodTable(t: Table, clock: int) {
    UniqueIds(t) && forall k :: k in t ==> t[k].createdAt <= t[k].updatedAt <= clock
  }

  /** The write by id touches the one row with that id, and only under the current lease. */
  lemma FencedWriteIsOneRow(t: Table, key: string, lease: int, result: ProviderResult, now: int)
    requires UniqueIds(t) && key in t
    ensures var id := t[key].id;
            if Fenced(t[key], id, lease)
            then Affected(t, id, lease) == {key}
                && FencedWrite(t, id, lease, result, now) == t[key := Finished(t[key], result, now)]
            else Affected(t, id, lease) == {} && FencedWrite(t, id, lease, result, now) == t
  {
  }

  /** Writing a row now, under an id no other row has, keeps the table well formed. */
  lemma RowChangeKeepsTable(t: Table, key: string, row: Row, clock: int, now: int)
    requires GoodTable(t, clock) && clock < now
    requires row.createdAt <= row.updatedAt == now
    requires if key in t then SameFrozen(row, t[key]) && t[key].status.Pending? else forall k :: k in t ==>
               t[k].id != row.id
    ensures GoodTable(t[key := row], now) && Evolves(t[key := row], t)
  {
  }

  /** The reservation keeps the table well formed, moves the lease of the reserved row to this
      instant and leaves every other row alone. */
  lemma ReservedKeepsTable(t: Table, key: string, req: RouterPaymentRequest, d: Decision, delay: nat, routerNow: int,
                           id: string, clock: int, now: int)
    requires GoodTable(t, clock) && clock < now
    requires d == Decide(t, key, req, delay, routerNow)
    requires d.Fresh? ==> forall k :: k in t ==> t[k].id != id
    ensures var t' := Reserved(t, key, req, d, id, now);
            && GoodTable(t', now) && Evolves(t', t)
            && (d.Claim? || d.Fresh? ==>
                  key in t' && t'[key].status.Pending? && t'[key].updatedAt == now && t' == t[key := t'[key]])
  {
    hide Accepts, Canon, Columns, RequestHash, GatewayFor;
    if d.Claim? || d.Fresh? {
      hide GoodTable, Evolves;
      RowChangeKeepsTable(t, key, Reserved(t, key, req, d, id, now)[key], clock, now) by { GoodRow(t, key, clock); }
    }
  }

  lemma GoodRow(t: Table, key: string, clock: int)
    requires GoodTable(t, clock)
    ensures key in t ==> t[key].createdAt <= t[key].updatedAt <= clock
  {
  }

  /** What the first request under a key leaves in the table: the payment as it was sent, pending, on
      the gateway of its instrument, with the digest of what is stored. */
  predicate FreshRow(row: Row, id: string, sent: RouterPaymentRequest, now: int) {
    && row.id == id && StoredAsSent(row.req, sent) && row.digest == Digest(row.req)
    && (row.gateway.GatewayBank? <==> row.req.instrument == "bank_transfer")
    && row.status.Pending? && row.ref == "" && row.error == "" && row.createdAt == row.updatedAt == now
  }

  /** A stored payment and the one that asks for it are the same. */
  lemma DecisionSpelledOut(t: Table, key: string, req: RouterPaymentRequest, delay: nat, routerNow: int)
    requires ValidRouterRequest(Canon(req)) && (key in t ==> GoodPayload(t[key]))
    ensures var d := Decide(t, key, req, delay, routerNow);
            if key !in t then d.Fresh?
            else if !StoredAsSent(t[key].req, req) then d.Conflict?
            else if Terminal(t[key].status) || routerNow - t[key].updatedAt < delay then d.Replayed?
            else d.Claim?
  {
    if key in t {
      ServedIsStored(t[key], req);
      CanonIsAsSent(t[key].req, req);
    }
    hide StoredAsSent, Accepts, ValidRouterRequest, Canon;
  }

  /** Only a request equal to the stored one is served; a conflict is exactly a different request. */
  lemma ServedIsStored(row: Row, req: RouterPaymentRequest)
    requires GoodPayload(row) && ValidRouterRequest(Canon(req))
    ensures Accepts(row.digest, req) <==> row.req == Canon(req)
  {
    Replay.CurrentRowAcceptsExactly(row.req, req);
  }

  lemma NewRowPayload(id: string, req: RouterPaymentRequest, now: int)
    requires ValidRouterRequest(Canon(req))
    ensures GoodPayload(NewRow(id, req, now)) && NewRow(id, req, now).req == Canon(req)
    ensures FreshRow(NewRow(id, req, now), id, req, now)
  {
    CanonFacts(req);
    BankIsBankTransfer(Canon(req).instrument);
    hide StoredAsSent, ValidRouterRequest, Canon;
  }

  /** A valid instrument is charged by the bank exactly when it is the bank transfer. */
  lemma BankIsBankTransfer(instrument: string)
    requires ValidInstrument(instrument)
    ensures GatewayFor(instrument).GatewayBank? <==> instrument == "bank_transfer"
  {
  }
}
