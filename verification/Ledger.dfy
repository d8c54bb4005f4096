/** The provider's idempotency ledger and its step machine (cmd/gateway-mock/main.go). One process
    keeps a card and a bank map, two counters and a mutex; the state file is a separate copy that
    survives a crash. A handler drops the mutex while the provider "thinks", so requests with one
    key may interleave anywhere. */
module LedgerMachine {
  import opened Payments
  import opened Adapters

  /** A recorded result: its verdict, and the provider's reference, empty on a refusal. */
  datatype Entry = Entry(approved: bool, ref: string)

  function RefPrefix(g: GatewayName): string {
    match g case GatewayCard => "card-auth-" case GatewayBank => "bank-transfer-"
  }

  /** The result a fresh decision produces; stamp is the printed clock. */
  function NewEntry(g: GatewayName, approved: bool, stamp: string): Entry {
    Entry(approved, if approved then RefPrefix(g) + stamp else "")
  }

  function Verdict(g: GatewayName, e: Entry): string {
    if e.approved then ApprovedVerdict(g) else RefusedVerdict(g)
  }

  /** The 200 answer carrying e. */
  function Encode(g: GatewayName, e: Entry): Answer { Http(200, Decoded(Verdict(g, e), e.ref)) }

  /** What the router must make of e. */
  function Outcome(g: GatewayName, e: Entry): ProviderResult {
    if e.approved then ProviderResult(Succeeded, e.ref, "") else ProviderResult(Failed, e.ref, RefusedText(g))
  }

  /** The adapters decode every recorded result to its own outcome: an approval to SUCCEEDED under its
      reference, a refusal to FAILED. */
  lemma EntriesDecode(g: GatewayName, e: Entry)
    ensures CallProvider(g, Encode(g, e)) == Outcome(g, e)
    ensures Encode(g, e).Http? && Encode(g, e).code == 200 && Encode(g, e).body.Decoded?
    ensures if e.approved then Approves(g, Encode(g, e).body.verdict) else Refuses(g, Encode(g, e).body.verdict)
    ensures Outcome(g, e).status == (if e.approved then Succeeded else Failed) && Outcome(g, e).ref == e.ref
    ensures Outcome(g, e).error != REJECTED_REQUEST
  {
    WordsMatchThemselves(g);
    VerdictsAreTheProviders(g, Encode(g, e));
    assert REJECTED_REQUEST[0] == 'p' && RefusedText(g)[0] != 'p';
    hide Approves, Refuses, ApprovedVerdict, RefusedVerdict, CallProvider;
  }

  lemma WordsMatchThemselves(g: GatewayName)
    ensures Approves(g, ApprovedVerdict(g)) && Refuses(g, RefusedVerdict(g))
    ensures !Approves(g, RefusedVerdict(g)) && !Refuses(g, ApprovedVerdict(g))
  {
    VerdictWords(g, ApprovedVerdict(g));
    VerdictWords(g, RefusedVerdict(g));
  }

  datatype Ledger = Ledger(card: map<string, Entry>, bank: map<string, Entry>, attempts: nat, charges: nat)

  const EMPTY := Ledger(map[], map[], 0, 0)

  function Results(l: Ledger, g: GatewayName): map<string, Entry> {
    match g case GatewayCard => l.card case GatewayBank => l.bank
  }

  function WithResults(l: Ledger, g: GatewayName, m: map<string, Entry>): Ledger {
    match g case GatewayCard => l.(card := m) case GatewayBank => l.(bank := m)
  }

  function Weight(e: Entry): nat { if e.approved then 1 else 0 }

  function Insert(l: Ledger, g: GatewayName, key: string, e: Entry): Ledger {
    WithResults(l, g, Results(l, g)[key := e]).(charges := l.charges + Weight(e))
  }

  predicate SameResults(a: Ledger, b: Ledger) { a.card == b.card && a.bank == b.bank && a.charges == b.charges }

  function Approved(m: map<string, Entry>): set<string> { set k | k in m && m[k].approved }

  /** The charge counter counts the approved entries, no more and no less. */
  predicate Counted(l: Ledger) { l.charges == |Approved(l.card)| + |Approved(l.bank)| }

  /** Nothing a ledger ever recorded is lost or changed. */
  predicate Extends(later: Ledger, earlier: Ledger) {
    forall g, k :: k in Results(earlier, g) ==>
      k in Results(later, g) && Results(later, g)[k] == Results(earlier, g)[k]
  }

  /******* One process *******/

  datatype Handler =
    | Waiting(g: GatewayName, key: string)
    | Storing(g: GatewayName, key: string, entry: Entry)

  datatype Reply = Reply(g: GatewayName, key: string, entry: Entry)

  /** storing names the handler inside the mutex between its insert and the outcome of its rename.
      replies is the history of all 200 answers. */
  datatype Process = Process(
    mem: Ledger, disk: Ledger, handlers: map<nat, Handler>, storing: Option<nat>, replies: set<Reply>)

  datatype Step =
    | Arrive(h: nat, g: GatewayName, key: string)
    | Leave(h: nat)
    | Decide(h: nat, approved: bool, stamp: string)
    | Stored
    | StoreFailed
    | Restart

  const FRESH := Process(EMPTY, EMPTY, map[], None, {})

  predicate Enabled(p: Process, s: Step) {
    match s
    case Arrive(h, g, key) => p.storing.None? && h !in p.handlers && key != ""
    case Leave(h) => h in p.handlers && p.handlers[h].Waiting?
    case Decide(h, _, _) => p.storing.None? && h in p.handlers && p.handlers[h].Waiting?
    case Stored => p.storing.Some? && p.storing.value in p.handlers && p.handlers[p.storing.value].Storing?
    case StoreFailed => p.storing.Some? && p.storing.value in p.handlers && p.handlers[p.storing.value].Storing?
    case Restart => true
  }

  function Uncount(l: Ledger, e: Entry): nat {
    if Weight(e) <= l.charges then l.charges - Weight(e) else 0
  }

  function Apply(p: Process, s: Step): Process
    requires Enabled(p, s)
  {
    match s
    case Arrive(h, g, key) =>
      var counted := p.(mem := p.mem.(attempts := p.mem.attempts + 1));
      if key in Results(p.mem, g) then
        counted.(replies := p.replies + {Reply(g, key, Results(p.mem, g)[key])})
      else
        counted.(handlers := p.handlers[h := Waiting(g, key)])
    case Leave(h) => p.(handlers := p.handlers - {h})
    case Decide(h, approved, stamp) =>
      var Waiting(g, key) := p.handlers[h];
      if key in Results(p.mem, g) then
        p.(handlers := p.handlers - {h}, replies := p.replies + {Reply(g, key, Results(p.mem, g)[key])})
      else
        var e := NewEntry(g, approved, stamp);
        p.(mem := Insert(p.mem, g, key, e), handlers := p.handlers[h := Storing(g, key, e)], storing := Some(h))
    case Stored =>
      var Storing(g, key, e) := p.handlers[p.storing.value];
      p.(disk := p.mem, handlers := p.handlers - {p.storing.value}, storing := None,
         replies := p.replies + {Reply(g, key, e)})
    case StoreFailed =>
      var Storing(g, key, e) := p.handlers[p.storing.value];
      p.(mem := WithResults(p.mem, g, Results(p.mem, g) - {key}).(charges := Uncount(p.mem, e)),
         handlers := p.handlers - {p.storing.value}, storing := None)
    case Restart => p.(mem := p.disk, handlers := map[], storing := None)
  }

  /** The second critical section as the handler runs it: the decision and, if there is something to
      store, the outcome of its rename, with the mutex held throughout. */
  function DecideAndStore(p: Process, h: nat, approved: bool, stamp: string, renamed: bool): Process
    requires Enabled(p, Decide(h, approved, stamp))
  {
    var mid := Apply(p, Decide(h, approved, stamp));
    if mid.storing.None? then mid else Apply(mid, if renamed then Stored else StoreFailed)
  }

  /******* What every interleaving keeps *******/

  function WaitingHandlers(p: Process): set<nat> {
    set h | h in p.handlers && p.handlers[h].Waiting?
  }

  /** The file agrees with memory whenever the mutex is free, and is one insert behind otherwise. */
  predicate DiskInStep(p: Process) {
    match p.storing
    case None => SameResults(p.mem, p.disk) && forall h :: h in p.handlers ==> p.handlers[h].Waiting?
    case Some(h) =>
      && h in p.handlers && p.handlers[h].Storing?
      && (forall h' :: h' in p.handlers && h' != h ==> p.handlers[h'].Waiting?)
      && var Storing(g, key, e) := p.handlers[h];
      && key !in Results(p.disk, g)
      && SameResults(p.mem, Insert(p.disk, g, key, e))
  }

  /** Charges and requests still thinking are covered by attempts, in memory and after a reload. */
  predicate Accounted(p: Process) {
    && Counted(p.mem) && Counted(p.disk)
    && p.mem.charges + |WaitingHandlers(p)| <= p.mem.attempts
    && p.disk.charges <= p.disk.attempts
  }

  /** Every 200 answer ever given is on disk. */
  predicate RepliesDurable(p: Process) {
    forall r :: r in p.replies ==> r.key in Results(p.disk, r.g) && Results(p.disk, r.g)[r.key] == r.entry
  }

  predicate Inv(p: Process) {
    DiskInStep(p) && Accounted(p) && RepliesDurable(p)
  }

  lemma FreshIsGood()
    ensures Inv(FRESH)
  {
    assert Approved(map[]) == {};
    assert WaitingHandlers(FRESH) == {};
  }

  lemma ApprovedGrows(m: map<string, Entry>, key: string, e: Entry)
    requires key !in m
    ensures |Approved(m[key := e])| == |Approved(m)| + Weight(e)
  {
    assert Approved(m[key := e]) == if e.approved then Approved(m) + {key} else Approved(m);
  }

  /** Rolling back exactly undoes the insert. */
  lemma RollbackUndoesInsert(p: Process)
    requires Inv(p) && Enabled(p, StoreFailed)
    ensures SameResults(Apply(p, StoreFailed).mem, p.disk)
    ensures Apply(p, StoreFailed).mem.attempts == p.mem.attempts
  {
    var Storing(g, key, e) := p.handlers[p.storing.value];
    assert Results(p.disk, g)[key := e] - {key} == Results(p.disk, g);
  }

  lemma CountedByResults(a: Ledger, b: Ledger)
    requires SameResults(a, b)
    ensures Counted(a) == Counted(b)
  {
  }

  lemma ArriveKeepsInv(p: Process, h: nat, g: GatewayName, key: string)
    requires Inv(p) && Enabled(p, Arrive(h, g, key))
    ensures Inv(Apply(p, Arrive(h, g, key)))
  {
    hide NewEntry, Insert, Encode, Outcome, Counted;
    var p' := Apply(p, Arrive(h, g, key));
    CountedByResults(p'.mem, p.mem);
    if key in Results(p.mem, g) {
      assert p'.handlers == p.handlers;
    } else {
      assert WaitingHandlers(p') == WaitingHandlers(p) + {h};
    }
  }

  lemma LeaveKeepsInv(p: Process, h: nat)
    requires Inv(p) && Enabled(p, Leave(h))
    ensures Inv(Apply(p, Leave(h)))
  {
    assert WaitingHandlers(Apply(p, Leave(h))) == WaitingHandlers(p) - {h};
  }

  lemma DecideKeepsInv(p: Process, h: nat, approved: bool, stamp: string)
    requires Inv(p) && Enabled(p, Decide(h, approved, stamp))
    ensures Inv(Apply(p, Decide(h, approved, stamp)))
  {
    assert WaitingHandlers(Apply(p, Decide(h, approved, stamp))) == WaitingHandlers(p) - {h};
    var Waiting(g, key) := p.handlers[h];
    if key !in Results(p.mem, g) {
      ApprovedGrows(Results(p.mem, g), key, NewEntry(g, approved, stamp));
    }
  }

  lemma StoredKeepsInv(p: Process)
    requires Inv(p) && Enabled(p, Stored)
    ensures Inv(Apply(p, Stored)) && Extends(Apply(p, Stored).disk, p.disk)
  {
    assert WaitingHandlers(Apply(p, Stored)) == WaitingHandlers(p);
  }

  lemma StoreFailedKeepsInv(p: Process)
    requires Inv(p) && Enabled(p, StoreFailed)
    ensures Inv(Apply(p, StoreFailed))
  {
    assert WaitingHandlers(Apply(p, StoreFailed)) == WaitingHandlers(p);
    RollbackUndoesInsert(p);
    assert Apply(p, StoreFailed).mem.charges <= p.mem.charges;
  }

  /** One step of any handler, a failed write or a crash keeps the invariant and never takes a
      recorded result or a given answer back. */
  lemma StepKeepsInv(p: Process, s: Step)
    requires Inv(p) && Enabled(p, s)
    ensures Inv(Apply(p, s))
    ensures Extends(Apply(p, s).disk, p.disk) && p.replies <= Apply(p, s).replies
  {
    match s
    case Arrive(h, g, key) => ArriveKeepsInv(p, h, g, key);
    case Leave(h) => LeaveKeepsInv(p, h);
    case Decide(h, approved, stamp) => DecideKeepsInv(p, h, approved, stamp);
    case Stored => StoredKeepsInv(p);
    case StoreFailed => StoreFailedKeepsInv(p);
    case Restart => assert WaitingHandlers(Apply(p, Restart)) == {};
  }

  /** A request that nothing disturbs: a recorded result is answered at once, and otherwise a fresh
      decision is stored and answered. */
  lemma FreshRequestIsStored(p: Process, h: nat, g: GatewayName, key: string, approved: bool, stamp: string)
    requires p.storing.None? && DiskInStep(p) && h !in p.handlers && key != ""
    ensures Enabled(p, Arrive(h, g, key))
    ensures var p1 := Apply(p, Arrive(h, g, key));
            if key in Results(p.mem, g) then
              var e := Results(p.mem, g)[key];
              Reply(g, key, e) in p1.replies && key in Results(p1.disk, g) && Results(p1.disk, g)[key] == e
            else
              && Enabled(p1, Decide(h, approved, stamp))
              && var p2 := Apply(p1, Decide(h, approved, stamp));
              && Enabled(p2, Stored)
              && var p3, e := Apply(p2, Stored), NewEntry(g, approved, stamp);
              && Reply(g, key, e) in p3.replies && key in Results(p3.disk, g) && Results(p3.disk, g)[key] == e
  {
    hide NewEntry;
  }

  /** What a fresh decision does to the money. An approval adds this key, and no other, to the approved
      ones of its map, under the provider's own reference, and one charge; a refusal leaves all
      approved entries and the charges as they were and has no reference. */
  lemma DecisionMovesMoney(p: Process, h: nat, approved: bool, stamp: string)
    requires Enabled(p, Decide(h, approved, stamp)) && p.handlers[h].key !in Results(p.mem, p.handlers[h].g)
    ensures var Waiting(g, key) := p.handlers[h];
            var mid := Apply(p, Decide(h, approved, stamp));
            && Enabled(mid, Stored)
            && var q := Apply(mid, Stored);
            var mine := if g.GatewayCard? then q.mem.card else q.mem.bank;
            && q.disk == q.mem && key in mine && mine[key].approved == approved
            && mine[key].ref == (if !approved then ""
               else (if g.GatewayCard? then "card-auth-" else "bank-transfer-") + stamp)
            && q.mem.charges == p.mem.charges + (if approved then 1 else 0) && q.mem.attempts == p.mem.attempts
            && (approved && g.GatewayCard? ==> Approved(q.mem.card) == Approved(p.mem.card) + {key})
            && (approved && g.GatewayBank? ==> Approved(q.mem.bank) == Approved(p.mem.bank) + {key})
            && (!approved || g.GatewayBank? ==> Approved(q.mem.card) == Approved(p.mem.card))
            && (!approved || g.GatewayCard? ==> Approved(q.mem.bank) == Approved(p.mem.bank))
  {
  }

  /** All 200 answers for one request id are one answer, whatever happened in between. */
  lemma RepliesAgree(p: Process, a: Reply, b: Reply)
    requires Inv(p) && a in p.replies && b in p.replies && a.g == b.g && a.key == b.key
    ensures a == b
  {
  }
}
