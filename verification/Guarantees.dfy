/** What holds in every state any schedule of the three services can reach, whatever crashes,
    lost locks, lost commits, duplicated calls and restarts it contains. */
module Guarantees {
  import opened Payments
  import opened Adapters
  import opened PaymentsTable
  import opened PaymentSystem
  import L = LedgerMachine
  import R = RouterMachine
  import P = RouterPayload
  import RouterTheorems
  import SystemProofs

  /** The state after a schedule, if every step of it could be taken. */
  function Exec(cfg: R.Config, s: System, steps: seq<Step>): Option<System> {
    if steps == [] then Some(s)
    else match Exec(cfg, s, steps[..|steps| - 1]) {
      case Some(m) => if Enabled(cfg, m, steps[|steps| - 1]) then Some(Apply(cfg, m, steps[|steps| - 1])) else None
      case None => None
    }
  }

  ghost predicate Good(cfg: R.Config, s: System) {
    Inv(cfg, s) && R.Paced(cfg, s.router) && P.PayloadInv(s.router) && P.CallsKnown(s.router)
  }

  /** Nothing durable or said is taken back. */
  predicate Grows(s: System, s': System) {
    && Evolves(s'.router.table, s.router.table)
    && L.Extends(s'.card.disk, s.card.disk) && L.Extends(s'.bank.disk, s.bank.disk)
    && RouterTheorems.AnswersKept(s.router, s'.router)
    && s.operator.replies <= s'.operator.replies
  }

  lemma GatewayStepIsGood(cfg: R.Config, s: System, g: GatewayName, l: L.Step)
    requires Good(cfg, s) && Enabled(cfg, s, GatewayStep(g, l))
    ensures var s' := Apply(cfg, s, GatewayStep(g, l)); Good(cfg, s') && Grows(s, s')
  {
    hide Inv, R.Paced, P.PayloadInv, P.CallsKnown;
    SystemProofs.GatewayStepKeepsInv(cfg, s, g, l);
    assert Apply(cfg, s, GatewayStep(g, l)).router == s.router;
  }

  lemma RouterStepIsGood(cfg: R.Config, s: System, r: R.Step)
    requires Good(cfg, s) && Enabled(cfg, s, RouterStep(r))
    ensures var s' := Apply(cfg, s, RouterStep(r)); Good(cfg, s') && Grows(s, s')
  {
    SystemProofs.RouterStepKeepsInv(cfg, s, r);
    RouterTheorems.StepKeepsInv(cfg, s.router, r);
    RouterTheorems.StepKeepsPace(cfg, s.router, r);
    P.StepKeepsPayload(cfg, s.router, r);
    P.StepKeepsCallsKnown(cfg, s.router, r);
  }

  lemma OperatorStepIsGood(cfg: R.Config, s: System, o: OperatorStep)
    requires Good(cfg, s) && Enabled(cfg, s, OperatorStep(o))
    ensures var s' := Apply(cfg, s, OperatorStep(o)); Good(cfg, s') && Grows(s, s')
  {
    hide Inv, R.Paced, P.PayloadInv, P.CallsKnown;
    SystemProofs.OperatorStepKeepsInv(cfg, s, o);
    assert Apply(cfg, s, OperatorStep(o)).router == s.router;
  }

  lemma PostIsGood(cfg: R.Config, s: System, c: nat, a: nat, req: RouterPaymentRequest)
    requires Good(cfg, s) && Enabled(cfg, s, Post(c, a, req))
    ensures var s' := Apply(cfg, s, Post(c, a, req)); Good(cfg, s') && Grows(s, s')
  {
    PostIsAnArrival(cfg, s, c, a, req);
    hide Inv, R.Paced, P.PayloadInv, P.CallsKnown, Enabled, Apply;
    hide Evolves, L.Extends, RouterTheorems.AnswersKept;
    SystemProofs.PostKeepsInv(cfg, s, c, a, req);
    RouterStepIsGood(cfg, s, R.Arrive(a, s.operator.serving[c].key, req));
  }

  lemma PostIsAnArrival(cfg: R.Config, s: System, c: nat, a: nat, req: RouterPaymentRequest)
    requires Enabled(cfg, s, Post(c, a, req))
    ensures c in s.operator.serving && Enabled(cfg, s, RouterStep(R.Arrive(a, s.operator.serving[c].key, req)))
    ensures var m, s' := Apply(cfg, s, RouterStep(R.Arrive(a, s.operator.serving[c].key, req))),
            Apply(cfg, s, Post(c, a, req));
            m.router == s'.router && m.card == s'.card && m.bank == s'.bank && m.operator.replies == s'.operator.replies
  {
    hide R.Enabled, R.Apply, MayPost;
  }

  lemma StepIsGood(cfg: R.Config, s: System, step: Step)
    requires Good(cfg, s) && Enabled(cfg, s, step)
    ensures Good(cfg, Apply(cfg, s, step)) && Grows(s, Apply(cfg, s, step))
  {
    match step
    case RouterStep(r) => RouterStepIsGood(cfg, s, r);
    case GatewayStep(g, l) => GatewayStepIsGood(cfg, s, g, l);
    case OperatorStep(o) => OperatorStepIsGood(cfg, s, o);
    case Post(c, a, req) => PostIsGood(cfg, s, c, a, req);
  }

  /** Every schedule from a good state stays good and only grows. */
  lemma {:induction false} ExecIsGood(cfg: R.Config, s: System, steps: seq<Step>)
    requires Good(cfg, s) && Exec(cfg, s, steps).Some?
    ensures Good(cfg, Exec(cfg, s, steps).value) && Grows(s, Exec(cfg, s, steps).value)
  {
    hide Good, Enabled, Apply;
    if steps != [] {
      var before := steps[..|steps| - 1];
      ExecIsGood(cfg, s, before);
      var m := Exec(cfg, s, before).value;
      StepIsGood(cfg, m, steps[|steps| - 1]);
      EvolvesTransitive(Apply(cfg, m, steps[|steps| - 1]).router.table, m.router.table, s.router.table);
    }
  }

  ghost predicate Reachable(cfg: R.Config, s: System) {
    exists steps :: Exec(cfg, INITIAL, steps) == Some(s)
  }

  lemma ReachableIsGood(cfg: R.Config, s: System)
    requires Reachable(cfg, s)
    ensures Good(cfg, s)
  {
    hide Good;
    var steps :| Exec(cfg, INITIAL, steps) == Some(s);
    InitialIsGood(cfg);
    ExecIsGood(cfg, INITIAL, steps);
  }

  lemma InitialIsGood(cfg: R.Config)
    ensures Good(cfg, INITIAL)
  {
    SystemProofs.InitialIsGood(cfg);
  }

  /******* At most one charge *******/

  /** A charge: the process, the map inside it, and the key approved there, on disk. */
  datatype Charge = Charge(process: GatewayName, ledger: GatewayName, key: string)

  predicate Charged(s: System, c: Charge) {
    var m := L.Results(Gateway(s, c.process).disk, c.ledger);
    c.key in m && m[c.key].approved
  }

  function ChargedKeys(s: System): set<string> {
    L.Approved(s.card.disk.card) + L.Approved(s.card.disk.bank) + L.Approved(s.bank.disk.card)
        + L.Approved(s.bank.disk.bank)
  }

  /** The part of the invariant about who may use a ledger slot. */
  lemma SlotsAreRouted(cfg: R.Config, s: System)
    requires Reachable(cfg, s)
    ensures Asked(s.router.called, GatewayCard, s.card) && Asked(s.router.called, GatewayBank, s.bank)
    ensures R.CallsRouted(s.router.table, s.router.called)
    ensures L.Counted(s.card.disk) && L.Counted(s.bank.disk) && L.DiskInStep(s.card) && L.DiskInStep(s.bank)
    ensures RowsBacked(s) && NeverAhead(s)
  {
    hide Reachable;
    ReachableIsGood(cfg, s);
  }

  /** In every reachable state a key is charged at most once over both processes and both maps, on
      the gateway frozen in its row. */
  lemma AtMostOneCharge(cfg: R.Config, s: System, x: Charge, y: Charge)
    requires Reachable(cfg, s) && Charged(s, x) && Charged(s, y) && x.key == y.key
    ensures x == y
    ensures x.key in s.router.table && x.process == x.ledger == s.router.table[x.key].gateway
  {
    hide Reachable, RowsBacked, NeverAhead, L.DiskInStep, L.Counted;
    SlotsAreRouted(cfg, s);
  }

  /** The two effective-charge counters together count the charged keys, each once, and there are no
      more of them than rows. */
  lemma CountersCountKeys(cfg: R.Config, s: System)
    requires Reachable(cfg, s)
    ensures s.card.disk.charges + s.bank.disk.charges == |ChargedKeys(s)|
    ensures ChargedKeys(s) <= s.router.table.Keys
    ensures s.card.storing.None? && s.bank.storing.None? ==> s.card.mem.charges + s.bank.mem.charges == |ChargedKeys(s)|
  {
    hide Reachable, RowsBacked, NeverAhead, Asked, R.CallsRouted, L.Approved;
    SlotsAreRouted(cfg, s);
    ChargesAreRouted(s);
    var c, b := L.Approved(s.card.disk.card), L.Approved(s.bank.disk.bank);
    assert c * b == {};
    assert ChargedKeys(s) == c + b;
  }

  /** The process has the key in a map, on disk or in memory, or in a request it is serving. */
  predicate Knows(p: L.Process, key: string) {
    || key in p.mem.card || key in p.mem.bank || key in p.disk.card || key in p.disk.bank
    || exists h :: h in p.handlers && p.handlers[h].key == key
  }

  /** Every key a provider knows, charged, refused or still being decided, has its durable row, and
      the row names that provider. */
  lemma KnownKeysHaveRows(cfg: R.Config, s: System, g: GatewayName, key: string)
    requires Reachable(cfg, s) && Knows(Gateway(s, g), key)
    ensures key in s.router.table && s.router.table[key].gateway == g
  {
    hide Reachable, RowsBacked, NeverAhead, L.DiskInStep, L.Counted;
    SlotsAreRouted(cfg, s);
    assert R.Call(g, key) in s.router.called;
  }

  /** Gateway accounting: in memory and on disk, charges equal the approved entries, and together with
      the requests still being decided they never exceed the attempts. */
  lemma GatewaysAreAccounted(cfg: R.Config, s: System, g: GatewayName)
    requires Reachable(cfg, s)
    ensures var p := Gateway(s, g);
            && p.mem.charges == |L.Approved(p.mem.card)| + |L.Approved(p.mem.bank)|
            && p.disk.charges == |L.Approved(p.disk.card)| + |L.Approved(p.disk.bank)|
            && p.mem.charges + |L.WaitingHandlers(p)| <= p.mem.attempts
  {
    GatewaysAreGood(cfg, s);
  }

  /** All 200 answers ever given for a key, by either process, are one answer. */
  lemma ProviderAnswersAgree(cfg: R.Config, s: System, f: GatewayName, g: GatewayName, x: L.Reply, y: L.Reply)
    requires Reachable(cfg, s) && x in Gateway(s, f).replies && y in Gateway(s, g).replies && x.key == y.key
    ensures f == g && x == y
  {
    hide Reachable;
    ReplyIsOnItsGateway(cfg, s, f, x);
    ReplyIsOnItsGateway(cfg, s, g, y);
  }

  lemma ReplyIsOnItsGateway(cfg: R.Config, s: System, g: GatewayName, x: L.Reply)
    requires Reachable(cfg, s) && x in Gateway(s, g).replies
    ensures x.g == g && x.key in s.router.table && s.router.table[x.key].gateway == g
    ensures var m := L.Results(Gateway(s, g).disk, g); x.key in m && m[x.key] == x.entry
  {
    GatewaysAreGood(cfg, s);
    assert x.key in L.Results(Gateway(s, g).disk, x.g) && L.Results(Gateway(s, g).disk, x.g)[x.key] == x.entry;
    hide Reachable, L.Inv;
    SlotsAreRouted(cfg, s);
    KnownKeysHaveRows(cfg, s, g, x.key);
    hide RowsBacked, NeverAhead, L.DiskInStep, L.Counted, R.CallsRouted;
  }

  lemma GatewaysAreGood(cfg: R.Config, s: System)
    requires Reachable(cfg, s)
    ensures L.Inv(s.card) && L.Inv(s.bank)
  {
    hide Reachable;
    ReachableIsGood(cfg, s);
  }

  lemma ChargesAreRouted(s: System)
    requires Asked(s.router.called, GatewayCard, s.card) && Asked(s.router.called, GatewayBank, s.bank)
             && R.CallsRouted(s.router.table, s.router.called)
    ensures L.Approved(s.card.disk.bank) == {} && L.Approved(s.bank.disk.card) == {}
    ensures forall k :: k in L.Approved(s.card.disk.card) ==>
              k in s.router.table && s.router.table[k].gateway.GatewayCard?
    ensures forall k :: k in L.Approved(s.bank.disk.bank) ==>
              k in s.router.table && s.router.table[k].gateway.GatewayBank?
  {
    forall k | k in L.Approved(s.card.disk.card) ensures k in s.router.table && s.router.table[k].gateway.GatewayCard? {
      assert R.Call(GatewayCard, k) in s.router.called;
    }
    forall k | k in L.Approved(s.bank.disk.bank) ensures k in s.router.table && s.router.table[k].gateway.GatewayBank? {
      assert R.Call(GatewayBank, k) in s.router.called;
    }
  }

  /** Once charged, a key stays charged with the same reference, whatever runs afterwards. */
  lemma ChargeIsForever(cfg: R.Config, s: System, steps: seq<Step>, c: Charge)
    requires Reachable(cfg, s) && Exec(cfg, s, steps).Some? && Charged(s, c)
    ensures var s' := Exec(cfg, s, steps).value;
            && Charged(s', c)
            && L.Results(Gateway(s', c.process).disk, c.ledger)[c.key]
               == L.Results(Gateway(s, c.process).disk, c.ledger)[c.key]
  {
    hide Good;
    ReachableIsGood(cfg, s);
    ExecIsGood(cfg, s, steps);
  }

  /******* Rows and ledgers agree *******/

  /** A SUCCEEDED row has its charge, under the same reference. A FAILED row has a recorded refusal
      and no charge, unless its error says that a 4xx answer made it fail. */
  lemma RowsTellTheTruth(cfg: R.Config, s: System, key: string)
    requires Reachable(cfg, s) && key in s.router.table
    ensures var row := s.router.table[key];
            var m := L.Results(Gateway(s, row.gateway).disk, row.gateway);
            && (row.status.Succeeded? ==> key in m && m[key] == L.Entry(true, row.ref) && key in ChargedKeys(s))
            && (row.status.Failed? && row.error != REJECTED_REQUEST ==>
                  key in m && m[key] == L.Entry(false, row.ref) && key !in ChargedKeys(s))
  {
    hide Reachable, NeverAhead, L.DiskInStep, L.Counted;
    SlotsAreRouted(cfg, s);
  }

  /** What is terminal now is what any later state says: the row itself, and every terminal answer
      the router ever gave for it, unanimous in id, status, gateway, reference, error and creation. */
  lemma TerminalIsForever(cfg: R.Config, s: System, steps: seq<Step>, a: nat)
    requires Reachable(cfg, s) && Exec(cfg, s, steps).Some?
    requires a in s.router.answers && Terminal(s.router.answers[a].status)
    ensures var s', x := Exec(cfg, s, steps).value, s.router.answers[a];
            && x.key in s'.router.table && x == View(x.key, s'.router.table[x.key])
            && (forall b ::
                  b in s'.router.answers && s'.router.answers[b].key == x.key && Terminal(s'.router.answers[b].status)
                  ==> s'.router.answers[b] == x)
  {
    hide Good, Reachable;
    ReachableIsGood(cfg, s);
    ExecIsGood(cfg, s, steps);
    var s' := Exec(cfg, s, steps).value;
    AnswersAreRows(cfg, s');
    assert a in s'.router.answers && R.AnswerFits(s'.router.table, s'.router.answers[a]);
  }

  lemma AnswersAreRows(cfg: R.Config, s: System)
    requires Good(cfg, s)
    ensures R.AnswersFit(s.router.table, s.router.answers) && NeverAhead(s)
  {
  }

  /** At most one terminal write per key: two states of one run with the key terminal have one row. */
  lemma OneTerminalWrite(cfg: R.Config, s: System, steps: seq<Step>, key: string)
    requires Reachable(cfg, s) && Exec(cfg, s, steps).Some?
    requires key in s.router.table
    ensures var s' := Exec(cfg, s, steps).value;
            && key in s'.router.table && SameFrozen(s'.router.table[key], s.router.table[key])
            && (Terminal(s.router.table[key].status) ==> s'.router.table[key] == s.router.table[key])
  {
    hide Good, Reachable;
    ReachableIsGood(cfg, s);
    ExecIsGood(cfg, s, steps);
  }

  /** A superseded lease is void for good: once the row has moved on to a later one, no write under
      the old lease, by whatever attempt and with or without its lock, ever touches the table again. */
  lemma SupersededForEver(cfg: R.Config, s: System, steps: seq<Step>, key: string, id: string, lease: int,
                          r: ProviderResult, now: int)
    requires Reachable(cfg, s) && Exec(cfg, s, steps).Some?
    requires key in s.router.table && s.router.table[key].id == id && lease < s.router.table[key].updatedAt
    ensures var later := Exec(cfg, s, steps).value.router.table;
            Affected(later, id, lease) == {} && FencedWrite(later, id, lease, r, now) == later
  {
    hide Good, Reachable;
    ReachableIsGood(cfg, s);
    ExecIsGood(cfg, s, steps);
    var later := Exec(cfg, s, steps).value.router.table;
    IdsAreUnique(cfg, Exec(cfg, s, steps).value);
    hide Affected, FencedWrite;
    FencedWriteIsOneRow(later, key, lease, r, now);
  }

  lemma IdsAreUnique(cfg: R.Config, s: System)
    requires Good(cfg, s)
    ensures UniqueIds(s.router.table)
  {
  }

  /******* The operator never runs ahead *******/

  /** The cached order and the router's row name one payment, and a terminal order says what the row
      says, although lookups write back without any lock. */
  lemma OrdersNeverAhead(cfg: R.Config, s: System, key: string)
    requires Reachable(cfg, s) && key in s.operator.orders
    ensures var o := s.operator.orders[key];
            && key in s.router.table
            && var row := s.router.table[key];
            && o.id == o.paymentId == row.id && o.gateway == row.gateway
            && (Terminal(o.status) ==> o.status == row.status && o.ref == row.ref && o.error == row.error)
  {
    hide Good, Reachable;
    ReachableIsGood(cfg, s);
    AnswersAreRows(cfg, s);
    assert OrderAgrees(s.router.table, key, s.operator.orders[key]);
  }

  /** A terminal public reply is the router's durable row, then and for ever; any two terminal
      replies for a key are equal. */
  lemma PublicRepliesNeverAhead(cfg: R.Config, s: System, steps: seq<Step>, p: PublicReply)
    requires Reachable(cfg, s) && Exec(cfg, s, steps).Some?
    requires p in s.operator.replies && Terminal(p.status)
    ensures var s' := Exec(cfg, s, steps).value;
            && p.key in s'.router.table && p == FromRouter(p.key, View(p.key, s'.router.table[p.key]))
            && (forall q :: q in s'.operator.replies && q.key == p.key && Terminal(q.status) ==> q == p)
  {
    hide Good, Reachable;
    ReachableIsGood(cfg, s);
    ExecIsGood(cfg, s, steps);
    AnswersAreRows(cfg, Exec(cfg, s, steps).value);
    assert p in Exec(cfg, s, steps).value.operator.replies;
  }

  /** Money follows the public answer: SUCCEEDED in public means one charge, under the reference
      told to the client, on the gateway told to the client. */
  lemma PublicSuccessIsCharged(cfg: R.Config, s: System, p: PublicReply)
    requires Reachable(cfg, s) && p in s.operator.replies && p.status.Succeeded?
    ensures Charged(s, Charge(p.gateway, p.gateway, p.key))
    ensures L.Results(Gateway(s, p.gateway).disk, p.gateway)[p.key].ref == p.ref
  {
    hide Good, Reachable;
    assert Exec(cfg, s, []) == Some(s);
    PublicRepliesNeverAhead(cfg, s, [], p);
    RowsTellTheTruth(cfg, s, p.key);
  }

  lemma RouterIsGood(cfg: R.Config, s: System)
    requires Reachable(cfg, s)
    ensures R.Inv(cfg, s.router) && R.Paced(cfg, s.router) && P.PayloadInv(s.router) && P.CallsKnown(s.router)
  {
    hide Reachable;
    ReachableIsGood(cfg, s);
  }

  /** Every row is a payable request, held under the bank exactly for a bank transfer. */
  lemma RowsArePayable(cfg: R.Config, s: System, key: string)
    requires Reachable(cfg, s) && key in s.router.table
    ensures var row := s.router.table[key];
            && key != "" && Payable(row.req) && StoredAsSent(row.req, row.req) && row.digest == Digest(row.req)
            && row.req.instrument in {"card", "bank_transfer", "wallet"}
            && (row.gateway.GatewayBank? <==> row.req.instrument == "bank_transfer")
  {
    hide Reachable, R.Inv, R.Paced, P.CallsKnown;
    RouterIsGood(cfg, s);
    var row := s.router.table[key];
    assert key != "" && GoodPayload(row);
    hide P.PayloadInv;
    ValidIffPayable(row.req);
    CanonIsAsSent(row.req, row.req);
    BankIsBankTransfer(row.req.instrument);
    hide Payable, StoredAsSent, Canon;
  }

  /** The router's own provider attempts for a key are rate limited in every reachable state. */
  lemma AttemptsAreRateLimited(cfg: R.Config, s: System, key: string)
    requires Reachable(cfg, s) && key in s.router.table && cfg.skew < cfg.delay
    ensures R.Count(s.router.calls, key) <= 1
            + (s.router.clock - s.router.table[key].createdAt) / (cfg.delay - cfg.skew)
  {
    hide Reachable, R.Inv, R.Paced, P.PayloadInv, P.CallsKnown;
    RouterIsGood(cfg, s);
    RouterTheorems.CallsAreRateLimited(cfg, s.router, key);
  }

  /** The provider calls for a key that a schedule sends. */
  function Sends(cfg: R.Config, s: System, steps: seq<Step>, key: string): nat {
    if steps == [] then 0
    else
      var before, last := steps[..|steps| - 1], steps[|steps| - 1];
      Sends(cfg, s, before, key)
      + match Exec(cfg, s, before) {
          case Some(m) => if SendsFor(m, last, key) then 1 else 0
          case None => 0
        }
  }

  predicate SendsFor(m: System, step: Step, key: string) {
    && step.RouterStep? && step.r.SendCall?
    && step.r.a in m.router.attempts && m.router.attempts[step.r.a].key == key
  }

  lemma StepCountsSends(cfg: R.Config, m: System, step: Step, key: string)
    requires Enabled(cfg, m, step)
    ensures R.Count(Apply(cfg, m, step).router.calls, key)
         == R.Count(m.router.calls, key) + (if SendsFor(m, step, key) then 1 else 0)
  {
    hide L.Enabled, L.Apply, R.Enabled, R.Apply, R.Count, OperatorEnabled, ApplyOperator, MayPost, Heard;
    match step
    case RouterStep(r) => RouterCountsSends(cfg, m.router, r, key);
    case Post(c, a, req) => RouterCountsSends(cfg, m.router, R.Arrive(a, m.operator.serving[c].key, req), key);
    case GatewayStep(_, _) =>
    case OperatorStep(_) =>
  }

  lemma RouterCountsSends(cfg: R.Config, r: R.Router, step: R.Step, key: string)
    requires R.Enabled(cfg, r, step)
    ensures step.SendCall? ==> step.a in r.attempts
    ensures R.Count(R.Apply(cfg, r, step).calls, key)
         == R.Count(r.calls, key) + (if step.SendCall? && r.attempts[step.a].key == key then 1 else 0)
  {
    hide Decide, Reserved, FencedWrite, Affected, ValidRouterRequest, Canon, CallProvider;
  }

  lemma {:induction false} SendsAreCounted(cfg: R.Config, s: System, steps: seq<Step>, key: string)
    requires Exec(cfg, s, steps).Some?
    ensures R.Count(Exec(cfg, s, steps).value.router.calls, key) == R.Count(s.router.calls, key)
            + Sends(cfg, s, steps, key)
  {
    hide Enabled, Apply, SendsFor, R.Count;
    if steps != [] {
      var before := steps[..|steps| - 1];
      SendsAreCounted(cfg, s, before, key);
      StepCountsSends(cfg, Exec(cfg, s, before).value, steps[|steps| - 1], key);
    }
  }

  lemma NothingSentYet(key: string)
    ensures R.Count(INITIAL.router.calls, key) == 0
  {
  }

  /** In every run the router sends at most 1 + elapsed / (delay - skew) provider calls for a key, counted
      from the creation of its row, however many requests, replicas and crashes there are. */
  lemma SendsAreRateLimited(cfg: R.Config, steps: seq<Step>, key: string)
    requires Exec(cfg, INITIAL, steps).Some? && cfg.skew < cfg.delay
    requires key in Exec(cfg, INITIAL, steps).value.router.table
    ensures var r := Exec(cfg, INITIAL, steps).value.router;
            Sends(cfg, INITIAL, steps, key) <= 1 + (r.clock - r.table[key].createdAt) / (cfg.delay - cfg.skew)
  {
    hide Reachable, Exec, Enabled, Apply, Sends, R.Count;
    RunsAreReachable(cfg, steps);
    NothingSentYet(key);
    SendsAreCounted(cfg, INITIAL, steps, key);
    AttemptsAreRateLimited(cfg, Exec(cfg, INITIAL, steps).value, key);
  }

  lemma RunsAreReachable(cfg: R.Config, steps: seq<Step>)
    requires Exec(cfg, INITIAL, steps).Some?
    ensures Reachable(cfg, Exec(cfg, INITIAL, steps).value)
  {
    hide Exec;
  }

  /** One more step of a schedule. */
  lemma Then(cfg: R.Config, s: System, steps: seq<Step>, m: System, step: Step)
    requires Exec(cfg, s, steps) == Some(m) && Enabled(cfg, m, step)
    ensures Exec(cfg, s, steps + [step]) == Some(Apply(cfg, m, step))
  {
    hide Enabled, Apply;
    assert (steps + [step])[..|steps + [step]| - 1] == steps;
  }

  /** Two schedules, one after the other. */
  lemma {:induction false} ThenAll(cfg: R.Config, s: System, xs: seq<Step>, ys: seq<Step>)
    requires Exec(cfg, s, xs).Some?
    ensures Exec(cfg, s, xs + ys) == Exec(cfg, Exec(cfg, s, xs).value, ys)
  {
    hide Enabled, Apply;
    if ys == [] {
      assert xs + ys == xs;
    } else {
      ThenAll(cfg, s, xs, ys[..|ys| - 1]);
      assert (xs + ys)[..|xs + ys| - 1] == xs + ys[..|ys| - 1];
    }
  }
}
