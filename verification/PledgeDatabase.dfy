/** The pledge tables as mutable state, and the statements of the repository that rewrite their rows. */
module PledgeDatabase {
  import opened Results
  import opened PledgeModel
  import opened PledgeQueries
  import opened PledgeService

  /** A statement did what `r` says: its effect on success, its error otherwise (the transaction is then lost). */
  predicate Performed(r: Result<Tables>, after: Tables, error: Option<Error>) {
    match r
    case Ok(t) => error.None? && after == t
    case Err(e) => error == Some(e)
  }

  class Database {
    var campaigns: seq<Campaign>
    var tiers: seq<Tier>
    var pledges: seq<Pledge>
    var events: seq<PaymentEvent>
    var accounts: seq<Account>
    var txns: seq<LedgerTxn>
    var entries: seq<Entry>
    var outbox: seq<OutboxEvent>

    constructor ()
      ensures View() == EMPTY
    {
      campaigns, tiers, pledges, events := [], [], [], [];
      accounts, txns, entries, outbox := [], [], [], [];
    }

    function View(): Tables
      reads this
    {
      Tables(campaigns, tiers, pledges, events, accounts, txns, entries, outbox)
    }

    // ---------------------------------------------------------------- transactions

    method Rollback(saved: Tables)
      modifies this
      ensures View() == saved
    {
      campaigns, tiers, pledges, events := saved.campaigns, saved.tiers, saved.pledges, saved.events;
      accounts, txns, entries, outbox := saved.accounts, saved.txns, saved.entries, saved.outbox;
    }

    /**
     * The end of Do: a body that failed, a fault, or a transaction the deferred trigger rejects restores
     * the tables saved at the beginning; otherwise the body's changes stay.
     */
    method Finish(saved: Tables, failed: Option<Error>, fault: bool) returns (error: Option<Error>)
      modifies this
      ensures var body := if failed.Some? then Err(failed.value) else Ok(old(View()));
              View() == Do(saved, body, fault).tables && error == Do(saved, body, fault).error
    {
      error := failed;
      if fault {
        error := Some(IoFault);
      } else if error.None? && !AllBalanced(txns, entries) {
        error := Some(Error.Unbalanced);
      }
      if error.Some? {
        Rollback(saved);
      }
    }

    // ---------------------------------------------------------------- statements

    method InsertPledge(p: Pledge) returns (error: Option<Error>)
      modifies this
      ensures Performed(PledgeQueries.InsertPledge(old(View()), p), View(), error)
    {
      if p.amount <= 0 {
        return Some(CheckViolation);
      }
      if FindOrder(pledges, p.orderId).Some? {
        return Some(UniqueViolation);
      }
      pledges := pledges + [p];
      return None;
    }

    method AttachOrder(id: nat, orderId: string) returns (error: Option<Error>)
      modifies this
      ensures Performed(PledgeQueries.AttachOrder(old(View()), id, orderId), View(), error)
      ensures error.Some? ==> View() == old(View())
    {
      if id < |pledges| {
        if OrderTaken(pledges, id, orderId) {
          return Some(UniqueViolation);
        }
        pledges := pledges[id := pledges[id].(orderId := orderId)];
      }
      return None;
    }

    method MarkPledgeCaptured(id: nat, paymentId: string) returns (error: Option<Error>)
      modifies this
      ensures Performed(MarkCaptured(old(View()), id, paymentId), View(), error)
    {
      if id < |pledges| {
        if PaymentTaken(pledges, id, paymentId) {
          return Some(UniqueViolation);
        }
        pledges := pledges[id := pledges[id].(status := Captured, paymentId := Some(paymentId))];
      }
      return None;
    }

    method MarkPledgeRefundPending(id: nat, paymentId: string, reason: RefundReason) returns (error: Option<Error>)
      modifies this
      ensures Performed(MarkRefundPending(old(View()), id, paymentId, reason), View(), error)
    {
      if id < |pledges| {
        if PaymentTaken(pledges, id, paymentId) {
          return Some(UniqueViolation);
        }
        pledges := pledges[id := pledges[id].(status := RefundPending, paymentId := Some(paymentId),
                                              reason := Some(reason))];
      }
      return None;
    }

    method SetPledgeStatus(id: nat, s: Status)
      modifies this
      ensures View() == SetStatus(old(View()), id, s)
    {
      if id < |pledges| {
        pledges := pledges[id := pledges[id].(status := s)];
      }
    }

    method IncrementCampaignRaised(id: nat, p: Pledge) returns (error: Option<Error>)
      modifies this
      ensures Performed(IncrementRaised(old(View()), id, p), View(), error)
    {
      if p.campaign < |campaigns| {
        var c := campaigns[p.campaign];
        var more := 1;
        if PriorPledge(pledges, id, p.campaign, p.backer) {
          more := 0;
        }
        if c.raised + p.amount > MAX_BIGINT || c.backers + more > MAX_INTEGER {
          return Some(OutOfRange);
        }
        campaigns := campaigns[p.campaign := c.(raised := c.raised + p.amount, backers := c.backers + more)];
      }
      return None;
    }

    method IncrementTierClaimed(id: nat) returns (error: Option<Error>)
      modifies this
      ensures Performed(IncrementClaimed(old(View()), id), View(), error)
    {
      if id < |tiers| {
        var r := tiers[id];
        if r.claimed + 1 > MAX_INTEGER {
          return Some(OutOfRange);
        }
        if r.limit.Some? && r.claimed + 1 > r.limit.value {
          return Some(CheckViolation);
        }
        tiers := tiers[id := r.(claimed := r.claimed + 1)];
      }
      return None;
    }

    method InsertPaymentEvent(e: PaymentEvent) returns (error: Option<Error>)
      modifies this
      ensures Performed(InsertEvent(old(View()), e), View(), error)
    {
      if EventRecorded(events, e.id) {
        return Some(DuplicateEvent);
      }
      if e.pledge.Some? && e.pledge.value >= |pledges| {
        return Some(ForeignKeyViolation);
      }
      events := events + [e];
      return None;
    }

    /** None when the reference already has a transaction of this kind. */
    method InsertLedgerTransaction(x: LedgerTxn) returns (id: Option<nat>)
      modifies this
      ensures id.Some? <==> x !in old(txns)
      ensures id.Some? ==> id.value == |old(txns)| && View() == old(View()).(txns := old(txns) + [x])
      ensures id.None? ==> View() == old(View())
    {
      if x in txns {
        return None;
      }
      txns := txns + [x];
      return Some(|txns| - 1);
    }

    method GetOrCreateAccount(a: Account) returns (id: nat)
      modifies this
      ensures View() == old(View()).(accounts := EnsureAccount(old(accounts), a))
      ensures a in accounts && id == AccountId(accounts, a)
    {
      if a !in accounts {
        accounts := accounts + [a];
      }
      id := AccountId(accounts, a);
    }

    method InsertLedgerEntries(rows: seq<Entry>) returns (error: Option<Error>)
      modifies this
      ensures error.None? <==> InsertEntries(old(entries), rows).Ok?
      ensures error.Some? ==> error.value == CheckViolation
      ensures error.None? ==> View() == old(View()).(entries := old(entries) + rows)
    {
      var i := 0;
      while i < |rows|
        invariant 0 <= i <= |rows|
        invariant View() == old(View()).(entries := old(entries) + rows[..i])
        invariant forall e | e in rows[..i] :: e.amount > 0
      {
        if rows[i].amount <= 0 {
          return Some(CheckViolation);
        }
        entries := entries + [rows[i]];
        i := i + 1;
      }
      assert rows[..i] == rows;
      return None;
    }

    method InsertOutbox(e: OutboxEvent)
      modifies this
      ensures View() == PledgeQueries.InsertOutbox(old(View()), e)
    {
      outbox := outbox + [e];
    }
  }
}
