/** Every interleaving of the router's create handler over any number of replicas
    (cmd/payment-router/main.go:137-280). One attempt is one request being served. Each transaction
    is one instant of the database clock, which strictly increases. The lock identifier is an
    arbitrary, possibly colliding, function of the key. A connection may be lost while its attempt
    goes on, and an attempt may vanish at any point. */
module RouterMachine {
  import opened Payments
  import opened Adapters
  import opened PaymentsTable

  /** delay: the recovery delay. skew: how far a replica's clock may run ahead of the database's. */
  datatype Config = Config(delay: nat, skew: nat, lockOf: string -> int)

  /** What a committed reservation entitles its attempt to. */
  datatype Ticket = Ticket(id: string, gateway: GatewayName, lease: int, createdAt: int)

  datatype Phase =
    | Queued
    | Locked
    | Charging(ticket: Ticket)
    | Calling(ticket: Ticket)
    | Returned(ticket: Ticket, result: ProviderResult)

  datatype Attempt = Attempt(key: string, req: RouterPaymentRequest, phase: Phase)

  datatype Call = Call(gateway: GatewayName, key: string)

  /** dropped, called, answers, claims and calls are history: attempts that lost their connection or
      are over, provider requests ever sent, the payment answer each attempt gave, and per key the recovery
      claims and the router's own provider attempts. */
  datatype Router = Router(
    clock: int, table: Table, locks: map<int, nat>, attempts: map<nat, Attempt>, dropped: set<nat>,
    called: set<Call>, answers: map<nat, PaymentResponse>, claims: map<string, nat>, calls: map<string, nat>)

  const EMPTY_ROUTER := Router(0, map[], map[], map[], {}, {}, map[], map[], map[])

  /** How a database write ends: done and reported, done but reported as failed, or not done. */
  datatype Outcome = Reported | Unreported | NotDone

  datatype Step =
    | Arrive(a: nat, key: string, req: RouterPaymentRequest)
    | Acquire(a: nat)
    | Reserve(a: nat, now: int, routerNow: int, id: string, outcome: Outcome)
    | RefuseCall(a: nat)
    | SendCall(a: nat)
    | Return(a: nat, answer: Answer)
    | Persist(a: nat, now: int, outcome: Outcome)
    | Disconnect(a: nat)
    | Vanish(a: nat)

  predicate HasTicket(p: Phase) { p.Charging? || p.Calling? || p.Returned? }

  function LockId(cfg: Config, s: Router, a: nat): int
    requires a in s.attempts
  {
    cfg.lockOf(s.attempts[a].key)
  }

  predicate Holds(cfg: Config, s: Router, a: nat) {
    a in s.attempts && LockId(cfg, s, a) in s.locks && s.locks[LockId(cfg, s, a)] == a
  }

  function Released(cfg: Config, s: Router, a: nat): map<int, nat>
    requires a in s.attempts
  {
    if Holds(cfg, s, a) then s.locks - {LockId(cfg, s, a)} else s.locks
  }

  /** The attempt is over: its lock goes with it, and its name is never used again. */
  function Ended(cfg: Config, s: Router, a: nat): Router
    requires a in s.attempts
  {
    s.(attempts := s.attempts - {a}, locks := Released(cfg, s, a), dropped := s.dropped + {a})
  }

  function Decided(cfg: Config, s: Router, a: nat, routerNow: int): Decision
    requires a in s.attempts
  {
    Decide(s.table, s.attempts[a].key, s.attempts[a].req, cfg.delay, routerNow)
  }

  /** A name no attempt has had so far. */
  predicate Unused(s: Router, a: nat) { a !in s.attempts && a !in s.dropped && a !in s.answers }

  predicate Enabled(cfg: Config, s: Router, step: Step) {
    match step
    case Arrive(a, key, req) => Unused(s, a) && ValidRouterRequest(Canon(req)) && key != ""
    case Acquire(a) => a in s.attempts && s.attempts[a].phase.Queued? && LockId(cfg, s, a) !in s.locks
    case Reserve(a, now, routerNow, id, outcome) =>
      && Holds(cfg, s, a) && s.attempts[a].phase.Locked?
      && s.clock < now && routerNow <= now + cfg.skew
      && (Decided(cfg, s, a, routerNow).Fresh? ==> forall k :: k in s.table ==> s.table[k].id != id)
    case RefuseCall(a) => a in s.attempts && s.attempts[a].phase.Charging?
    case SendCall(a) => a in s.attempts && s.attempts[a].phase.Charging?
    case Return(a, answer) => a in s.attempts && s.attempts[a].phase.Calling?
    case Persist(a, now, outcome) => a in s.attempts && s.attempts[a].phase.Returned? && s.clock < now
    case Disconnect(a) => a in s.attempts && !s.attempts[a].phase.Queued?
    case Vanish(a) => a in s.attempts
  }

  function Count(m: map<string, nat>, key: string): nat { if key in m then m[key] else 0 }

  function WithPhase(s: Router, a: nat, p: Phase): Router
    requires a in s.attempts
  {
    s.(attempts := s.attempts[a := s.attempts[a].(phase := p)])
  }

  function Answered(key: string, t: Ticket, r: ProviderResult): PaymentResponse {
    PaymentResponse(t.id, key, r.status, t.gateway, r.ref, r.error, t.createdAt)
  }

  /** A result that could not be recorded is never reported as final. */
  function Unrecorded(r: ProviderResult): ProviderResult {
    r.(status := Pending, error := "payment result persistence unavailable")
  }

  function TicketOf(row: Row): Ticket { Ticket(row.id, row.gateway, row.updatedAt, row.createdAt) }

  /** The reserved row is durable; a claim is counted. */
  function Written(cfg: Config, s: Router, a: nat, now: int, routerNow: int, id: string): Router
    requires a in s.attempts
  {
    var key := s.attempts[a].key;
    var d := Decided(cfg, s, a, routerNow);
    s.(clock := now, table := Reserved(s.table, key, s.attempts[a].req, d, id, now),
       claims := s.claims[key := if d.Claim? then Count(s.claims, key) + 1 else 0])
  }

  function ApplyReserve(cfg: Config, s: Router, a: nat, now: int, routerNow: int, id: string, outcome: Outcome): Router
    requires Enabled(cfg, s, Reserve(a, now, routerNow, id, outcome))
  {
    var key := s.attempts[a].key;
    var d := Decided(cfg, s, a, routerNow);
    if d.Conflict? || outcome.NotDone? || (d.Replayed? && outcome.Unreported?) then
      Ended(cfg, s.(clock := now), a)
    else if d.Replayed? then
      Ended(cfg, s.(clock := now), a).(answers := s.answers[a := View(key, s.table[key])])
    else
      var written := Written(cfg, s, a, now, routerNow, id);
      if outcome.Reported? then WithPhase(written, a, Charging(TicketOf(written.table[key])))
      else Ended(cfg, written, a)
  }

  function ApplyPersist(cfg: Config, s: Router, a: nat, now: int, outcome: Outcome): Router
    requires Enabled(cfg, s, Persist(a, now, outcome))
  {
    var Attempt(key, _, Returned(t, r)) := s.attempts[a];
    var recorded := outcome.Reported? && |Affected(s.table, t.id, t.lease)| == 1;
    var ended := Ended(cfg, s, a);
    ended.(clock := now,
           table := if outcome.NotDone? then s.table else FencedWrite(s.table, t.id, t.lease, r, now),
           answers := s.answers[a := Answered(key, t, if recorded then r else Unrecorded(r))])
  }

  function Apply(cfg: Config, s: Router, step: Step): Router
    requires Enabled(cfg, s, step)
  {
    match step
    case Arrive(a, key, req) => s.(attempts := s.attempts[a := Attempt(key, req, Queued)])
    case Acquire(a) => WithPhase(s, a, Locked).(locks := s.locks[LockId(cfg, s, a) := a])
    case Reserve(a, now, routerNow, id, outcome) => ApplyReserve(cfg, s, a, now, routerNow, id, outcome)
    case RefuseCall(a) =>
      WithPhase(s, a, Returned(s.attempts[a].phase.ticket, CIRCUIT_OPEN))
    case SendCall(a) =>
      var Attempt(key, _, Charging(t)) := s.attempts[a];
      WithPhase(s, a, Calling(t)).(called := s.called + {Call(t.gateway, key)},
                                   calls := s.calls[key := Count(s.calls, key) + 1])
    case Return(a, answer) =>
      var t := s.attempts[a].phase.ticket;
      WithPhase(s, a, Returned(t, CallProvider(t.gateway, answer)))
    case Persist(a, now, outcome) => ApplyPersist(cfg, s, a, now, outcome)
    case Disconnect(a) => s.(locks := Released(cfg, s, a), dropped := s.dropped + {a})
    case Vanish(a) => Ended(cfg, s, a)
  }

  /******* The invariant *******/

  predicate TicketFits(table: Table, key: string, t: Ticket) {
    && key in table
    && table[key].id == t.id && table[key].gateway == t.gateway && table[key].createdAt == t.createdAt
    && t.lease <= table[key].updatedAt
  }

  predicate TicketsFit(s: Router) {
    forall a :: a in s.attempts && HasTicket(s.attempts[a].phase) ==>
      TicketFits(s.table, s.attempts[a].key, s.attempts[a].phase.ticket)
  }

  /** No two attempts on one key carry the same lease. */
  predicate LeasesDiffer(s: Router) {
    forall a, b :: a in s.attempts && b in s.attempts && a != b && s.attempts[a].key == s.attempts[b].key
      && HasTicket(s.attempts[a].phase) && HasTicket(s.attempts[b].phase)
      ==> s.attempts[a].phase.ticket.lease != s.attempts[b].phase.ticket.lease
  }

  predicate LocksOwned(cfg: Config, s: Router) {
    forall l :: l in s.locks ==>
      s.locks[l] in s.attempts && LockId(cfg, s, s.locks[l]) == l && !s.attempts[s.locks[l]].phase.Queued?
  }

  /** While an attempt still has its lock, its row is pending under its own lease. */
  ghost predicate HoldersCurrent(cfg: Config, s: Router) {
    forall a :: Holds(cfg, s, a) && HasTicket(s.attempts[a].phase) ==>
      && s.attempts[a].key in s.table
      && Fenced(s.table[s.attempts[a].key], s.attempts[a].phase.ticket.id, s.attempts[a].phase.ticket.lease)
  }

  /** An attempt past the queue has its lock unless its connection was lost. */
  predicate LostOrHolding(cfg: Config, s: Router) {
    forall a :: a in s.attempts && !s.attempts[a].phase.Queued? ==> a in s.dropped || Holds(cfg, s, a)
  }

  predicate AnswerFits(table: Table, ans: PaymentResponse) {
    && ans.key in table
    && var row := table[ans.key];
    && ans.id == row.id && ans.gateway == row.gateway && ans.createdAt == row.createdAt
    && (Terminal(ans.status) ==> ans == View(ans.key, row))
  }

  /** Every answer is about its row, and a terminal answer is that row. */
  predicate AnswersFit(table: Table, answers: map<nat, PaymentResponse>) {
    forall a :: a in answers ==> AnswerFits(table, answers[a])
  }

  /** An attempt answers once, at its end. */
  predicate AnswerOnce(s: Router) { forall a :: a in s.attempts ==> a !in s.answers }

  predicate CallsRouted(table: Table, called: set<Call>) {
    forall c :: c in called ==> c.key in table && table[c.key].gateway == c.gateway
  }

  function ChargingOn(s: Router, key: string): set<nat> {
    set a | a in s.attempts && s.attempts[a].key == key && s.attempts[a].phase.Charging?
  }

  /** Each claim moved the lease on by at least the delay, and each provider attempt was paid for by
      the reservation or by a claim. */
  predicate PacedKey(cfg: Config, s: Router, key: string) {
    && key in s.claims && key in s.table
    && s.claims[key] * (cfg.delay - cfg.skew) <= s.table[key].updatedAt - s.table[key].createdAt
    && Count(s.calls, key) + |ChargingOn(s, key)| <= s.claims[key] + 1
  }

  ghost predicate Paced(cfg: Config, s: Router) {
    && (forall key :: key in s.table ==> PacedKey(cfg, s, key))
    && (forall key :: key !in s.table ==> Count(s.calls, key) == 0 && ChargingOn(s, key) == {})
  }

  ghost predicate Inv(cfg: Config, s: Router) {
    && GoodTable(s.table, s.clock) && TicketsFit(s) && LeasesDiffer(s)
    && LocksOwned(cfg, s) && HoldersCurrent(cfg, s) && LostOrHolding(cfg, s)
    && AnswersFit(s.table, s.answers) && AnswerOnce(s) && CallsRouted(s.table, s.called)
  }
}
