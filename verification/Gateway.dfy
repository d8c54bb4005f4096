/** The gateway process as the object it is: maps and counters changed in place under a mutex, a
    state file written before any 200 answer, and an exact rollback when the write fails
    (cmd/gateway-mock/main.go). */
module GatewayServer {
  import opened Payments
  import opened LedgerMachine

  datatype Behavior = Success | Decline | Unavailable

  datatype HttpReply = Answered(entry: Entry) | ServiceUnavailable | Abandoned | BadRequest

  class Gateway {
    var card: map<string, Entry>
    var bank: map<string, Entry>
    var attempts: nat
    var effectiveCharges: nat
    var file: Option<Ledger>

    function Memory(): Ledger
      reads this
    {
      Ledger(card, bank, attempts, effectiveCharges)
    }

    /** What a reload would find; without a file the maps start empty. */
    function Disk(): Ledger
      reads this
    {
      if file.Some? then file.value else EMPTY
    }

    /** The state between two critical sections: the mutex is free. */
    ghost predicate Valid()
      reads this
    {
      && SameResults(Memory(), Disk())
      && Counted(Memory())
      && Memory().charges <= Memory().attempts && Disk().charges <= Disk().attempts
    }

    constructor ()
      ensures Valid() && Memory() == Disk() == EMPTY
    {
      card, bank, attempts, effectiveCharges, file := map[], map[], 0, 0, None;
      new;
      assert Approved(map[]) == {};
    }

    /** A crash at any point between critical sections and the reload after it lose no result. */
    method Restart()
      requires Valid()
      modifies this
      ensures Valid() && Memory() == Disk() == old(Disk())
      ensures card == old(card) && bank == old(bank) && effectiveCharges == old(effectiveCharges)
    {
      card, bank, attempts, effectiveCharges := map[], map[], 0, 0;
      if file.Some? {
        card, bank := file.value.card, file.value.bank;
        attempts, effectiveCharges := file.value.attempts, file.value.charges;
      }
    }

    /** The rename either replaces the whole file or leaves it alone. */
    method PersistStateLocked(renamed: bool) returns (ok: bool)
      modifies this`file
      ensures ok == renamed
      ensures Disk() == if renamed then Memory() else old(Disk())
    {
      if !renamed {
        return false;
      }
      file := Some(Memory());
      return true;
    }

    method Lookup(g: GatewayName, id: string) returns (hit: Option<Entry>)
      ensures hit == if id in Results(Memory(), g) then Some(Results(Memory(), g)[id]) else None
    {
      hit := None;
      if g.GatewayCard? {
        if id in card { hit := Some(card[id]); }
      } else {
        if id in bank { hit := Some(bank[id]); }
      }
    }

    /** First critical section: count the attempt and answer a known request from the ledger. From any
        machine state p with this memory and file, the machine's arrival leaves the same memory and
        file, the same answer to a known id, and a waiting handler for an unknown one. */
    method Begin(g: GatewayName, id: string, ghost p: Process, ghost h: nat) returns (hit: Option<Entry>)
      requires Valid() && id != ""
      requires p.mem == Memory() && p.disk == Disk() && p.storing.None? && h !in p.handlers
      modifies this`attempts
      ensures Valid()
      ensures Memory() == old(Memory()).(attempts := old(attempts) + 1)
      ensures hit == if id in Results(Disk(), g) then Some(Results(Disk(), g)[id]) else None
      ensures var q := Apply(p, Arrive(h, g, id));
              && Memory() == q.mem && Disk() == q.disk
              && (if hit.Some? then q.replies == p.replies + {Reply(g, id, hit.value)} && q.handlers == p.handlers
                  else q.replies == p.replies && q.handlers == p.handlers[h := Waiting(g, id)])
    {
      attempts := attempts + 1;
      hit := Lookup(g, id);
    }

    method Remember(g: GatewayName, id: string, res: Entry)
      requires Counted(Memory()) && id !in Results(Memory(), g)
      modifies this`card, this`bank, this`effectiveCharges
      ensures Memory() == Insert(old(Memory()), g, id, res) && Counted(Memory())
    {
      ApprovedGrows(Results(Memory(), g), id, res);
      if g.GatewayCard? { card := card[id := res]; } else { bank := bank[id := res]; }
      if res.approved { effectiveCharges := effectiveCharges + 1; }
    }

    /** Deleting the entry and taking its charge back restores the ledger before the insert. */
    method Forget(g: GatewayName, id: string, res: Entry, ghost before: Ledger)
      requires id !in Results(before, g) && Memory() == Insert(before, g, id, res)
      modifies this`card, this`bank, this`effectiveCharges
      ensures Memory() == before
    {
      assert Results(before, g)[id := res] - {id} == Results(before, g);
      if g.GatewayCard? { card := card - {id}; } else { bank := bank - {id}; }
      if res.approved { effectiveCharges := effectiveCharges - 1; }
    }

    /** Second critical section: look again, insert, write the file, undo the insert if the write
        failed. The ledger either already had the id, or gained exactly this result on disk and in
        memory, or is exactly as before. From any machine state p with this memory and file in which
        handler h waits for id, the machine's decision and storing steps end in the same memory and
        file with the same answer. */
    method Finish(g: GatewayName, id: string, approve: bool, stamp: string, renamed: bool, ghost p: Process,
                  ghost h: nat)
      returns (r: HttpReply)
      requires Valid() && effectiveCharges < attempts
      requires p.mem == Memory() && p.disk == Disk() && p.storing.None? && h in p.handlers
               && p.handlers[h] == Waiting(g, id)
      modifies this
      ensures Valid() && attempts == old(attempts)
      ensures var e := NewEntry(g, approve, stamp);
              if id in Results(old(Memory()), g) then
                r == Answered(Results(old(Memory()), g)[id]) && Memory() == old(Memory()) && Disk() == old(Disk())
              else if renamed then
                && r == Answered(e) && Memory() == Disk() == Insert(old(Memory()), g, id, e)
                && Decided(old(Memory()), g, id, approve, stamp, r.entry)
              else
                r == ServiceUnavailable && Memory() == old(Memory()) && Disk() == old(Disk())
      ensures var q := DecideAndStore(p, h, approve, stamp, renamed);
              && Memory() == q.mem && Disk() == q.disk && q.storing.None?
              && q.replies == if r.Answered? then p.replies + {Reply(g, id, r.entry)} else p.replies
    {
      FinishIsTheMachine(p, h, approve, stamp, renamed);
      FreshEntryAsTold(Memory(), g, id, approve, stamp);
      hide DecideAndStore, NewEntry;
      var known := Lookup(g, id);
      if known.Some? {
        return Answered(known.value);
      }
      var res := NewEntry(g, approve, stamp);
      Remember(g, id, res);
      var ok := PersistStateLocked(renamed);
      if !ok {
        Forget(g, id, res, old(Memory()));
        return ServiceUnavailable;
      }
      return Answered(res);
    }

    /** The other requests served while this one thinks: they extend the ledger and no more, and
        leave room in the attempt count for this one. */
    method OtherRequests()
      requires Valid() && effectiveCharges < attempts
      modifies this
      ensures Valid() && effectiveCharges < attempts && old(attempts) <= attempts
      ensures Extends(Disk(), old(Disk()))
    {
    }

    /** A fresh result e of g, told to a ledger that was seen: its map has gained exactly this entry. An
        approval carries the provider's reference and is charged; a refusal has no reference and
        charges nothing. */
    predicate Decided(seen: Ledger, g: GatewayName, id: string, approve: bool, stamp: string, e: Entry)
      reads this
    {
      && attempts == seen.attempts
      && card == (if g.GatewayCard? then seen.card[id := e] else seen.card)
      && bank == (if g.GatewayBank? then seen.bank[id := e] else seen.bank)
      && if approve then
           && e.approved && e.ref == (if g.GatewayCard? then "card-auth-" else "bank-transfer-") + stamp
           && effectiveCharges == seen.charges + 1
         else
           !e.approved && e.ref == "" && effectiveCharges == seen.charges
    }

    /** A whole request. seen is the ledger when it has done thinking. A known id is answered with its
        recorded result under every behaviour, before and after thinking; an unknown one gets what the
        behaviour decides, stored before it is answered; a 200 answer is always what the state file
        holds; the attempt is counted, and nothing recorded is ever lost. */
    method Serve(g: GatewayName, id: string, cancelled: bool, behavior: Behavior, stamp: string, renamed: bool)
      returns (r: HttpReply, ghost seen: Ledger)
      requires Valid()
      modifies this
      ensures Valid() && Extends(Disk(), old(Disk())) && Extends(seen, old(Disk()))
      ensures r.Answered? ==> id in Results(Disk(), g) && Results(Disk(), g)[id] == r.entry
      ensures id == "" ==> r == BadRequest && Memory() == old(Memory())
      ensures id != "" ==> old(attempts) < attempts
      ensures id != "" && id in Results(old(Disk()), g) ==> r == Answered(Results(old(Disk()), g)[id])
      ensures id != "" && id !in Results(old(Disk()), g) ==>
                if cancelled then r == Abandoned && Memory() == seen
                else if behavior.Unavailable? then r == ServiceUnavailable && Memory() == seen
                else if id in Results(seen, g) then r == Answered(Results(seen, g)[id]) && Memory() == seen
                else if !renamed then r == ServiceUnavailable && Memory() == seen
                else r.Answered? && Memory() == Disk() && Decided(seen, g, id, behavior.Success?, stamp, r.entry)
    {
      hide NewEntry, DecideAndStore, Insert, Extends, Counted;
      seen := Memory();
      SameResultsExtend(seen, Disk(), Disk());
      if id == "" {
        return BadRequest, seen;
      }
      var hit := Begin(g, id, Process(Memory(), Disk(), map[], None, {}), 0);
      if hit.Some? {
        return Answered(hit.value), seen;
      }
      OtherRequests();
      seen := Memory();
      SameResultsExtend(seen, Disk(), old(Disk()));
      InsertExtends(seen, g, id, NewEntry(g, behavior.Success?, stamp), old(Disk()));
      if cancelled {
        return Abandoned, seen;
      }
      if behavior.Unavailable? {
        return ServiceUnavailable, seen;
      }
      r := Finish(g, id, behavior.Success?, stamp, renamed,
          Process(Memory(), Disk(), map[0 := Waiting(g, id)], None, {}), 0);
    }
  }

  lemma FreshEntryAsTold(l: Ledger, g: GatewayName, id: string, approve: bool, stamp: string)
    ensures var e := NewEntry(g, approve, stamp);
            var q := Insert(l, g, id, e);
            && e.approved == approve
            && e.ref == (if approve then (if g.GatewayCard? then "card-auth-" else "bank-transfer-") + stamp else "")
            && q.charges == l.charges + (if approve then 1 else 0) && q.attempts == l.attempts
            && q.card == (if g.GatewayCard? then l.card[id := e] else l.card)
            && q.bank == (if g.GatewayBank? then l.bank[id := e] else l.bank)
  {
  }

  lemma SameResultsExtend(l: Ledger, same: Ledger, earlier: Ledger)
    requires SameResults(l, same) && (same == earlier || Extends(same, earlier))
    ensures Extends(l, earlier) && Extends(same, earlier)
  {
  }

  lemma InsertExtends(l: Ledger, g: GatewayName, id: string, e: Entry, earlier: Ledger)
    requires Extends(l, earlier)
    ensures id !in Results(l, g) ==> Extends(Insert(l, g, id, e), earlier)
    ensures id in Results(Insert(l, g, id, e), g) && Results(Insert(l, g, id, e), g)[id] == e
  {
  }

  /** What the machine's decision and storing steps amount to when nothing comes between them: a known
      id is answered, a fresh result is stored and answered, or nothing is left of it. */
  lemma FinishIsTheMachine(p: Process, h: nat, approve: bool, stamp: string, renamed: bool)
    requires Enabled(p, Decide(h, approve, stamp))
    ensures var Waiting(g, key) := p.handlers[h];
            var e := NewEntry(g, approve, stamp);
            var q := DecideAndStore(p, h, approve, stamp, renamed);
            && q.storing.None? && q.handlers == p.handlers - {h}
            && if key in Results(p.mem, g) then
                 q.mem == p.mem && q.disk == p.disk && q.replies == p.replies + {Reply(g, key, Results(p.mem, g)[key])}
               else if renamed then
                 q.mem == q.disk == Insert(p.mem, g, key, e) && q.replies == p.replies + {Reply(g, key, e)}
               else
                 q.mem == p.mem && q.disk == p.disk && q.replies == p.replies
  {
    var Waiting(g, key) := p.handlers[h];
    var e := NewEntry(g, approve, stamp);
    assert key !in Results(p.mem, g) ==> Results(p.mem, g)[key := e] - {key} == Results(p.mem, g);
    assert p.handlers[h := Storing(g, key, e)] - {h} == p.handlers - {h};
  }
}
