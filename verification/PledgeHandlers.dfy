/**
 * The pledge service as it runs: each request issues its statements one by one against the database and
 * ends its transaction. Every method is proved to do what its function in PledgeService says.
 */
module PledgeHandlers {
  import opened Results
  import opened PledgeModel
  import opened PledgeQueries
  import opened PledgeService
  import opened PledgeDatabase
  import opened WebhookDedup
  import opened CaptureProofs
  import opened PledgeHistory
  import opened PledgeRequests

  /** An account keeps its id when others are added. */
  lemma {:induction false} AccountIdStable(accounts: seq<Account>, a: Account, b: Account)
    requires a in accounts
    ensures a in EnsureAccount(accounts, b) && AccountId(EnsureAccount(accounts, b), a) == AccountId(accounts, a)
  {
    if b !in accounts {
      assert (accounts + [b])[..|accounts|] == accounts;
    }
  }

  // ---------------------------------------------------------------- choosing the capture

  lemma {:induction false} FirstCaptureAt(payments: seq<Payment>, want: Payment -> bool, k: nat)
    requires k < |payments| && want(payments[k]) && forall j | 0 <= j < k :: !want(payments[j])
    ensures FirstCapture(payments, want) == Some(CaptureOf(payments[k]))
  {
    if k > 0 {
      FirstCaptureAt(payments[1..], want, k - 1);
    }
  }

  lemma {:induction false} NoCapture(payments: seq<Payment>, want: Payment -> bool)
    requires forall j | 0 <= j < |payments| :: !want(payments[j])
    ensures FirstCapture(payments, want).None?
  {
    if payments != [] {
      NoCapture(payments[1..], want);
    }
  }

  /** One pass over the payments: the preferred captured one ends it, the first captured one is kept. */
  method ChooseCapture(payments: seq<Payment>, prefer: string) returns (paid: Option<Capture>)
    ensures paid == FindCapture(payments, prefer)
    ensures paid.None? ==> forall i: nat | i < |payments| :: !payments[i].captured
    ensures paid.Some? ==> exists i: nat :: Takes(payments, prefer, i) && CarriesPayment(paid.value, payments[i])
  {
    var found: Option<nat> := None;
    var i := 0;
    while i < |payments|
      invariant 0 <= i <= |payments|
      invariant forall j | 0 <= j < i :: !(payments[j].captured && payments[j].id == prefer)
      invariant found.None? ==> forall j | 0 <= j < i :: !payments[j].captured
      invariant found.Some? ==> found.value < i && payments[found.value].captured
                                && forall j | 0 <= j < found.value :: !payments[j].captured
    {
      if payments[i].captured {
        if payments[i].id == prefer {
          FirstCaptureAt(payments, (p: Payment) => p.captured && p.id == prefer, i);
          assert Takes(payments, prefer, i);
          return Some(CaptureOf(payments[i]));
        }
        if found.None? {
          found := Some(i);
        }
      }
      i := i + 1;
    }
    if found.None? {
      NoCapture(payments, (p: Payment) => p.captured);
      return None;
    }
    FirstCaptureAt(payments, (p: Payment) => p.captured, found.value);
    assert Takes(payments, prefer, found.value);
    return Some(CaptureOf(payments[found.value]));
  }

  /** The keys of deliveries. A call may fail, and fail to take effect. */
  class Redis {
    var keys: set<string>

    constructor ()
      ensures keys == {}
    {
      keys := {};
    }

    method SetNX(id: string, takesEffect: bool)
      modifies this
      ensures keys == KeysSet(old(keys), id, takesEffect)
    {
      if takesEffect {
        keys := keys + {id};
      }
    }

    method Del(id: string, takesEffect: bool)
      modifies this
      ensures keys == KeysEnd(old(keys), id, true, takesEffect)
    {
      if takesEffect {
        keys := keys - {id};
      }
    }
  }

  class Service {
    const db: Database

    constructor (db: Database)
      ensures this.db == db
    {
      this.db := db;
    }

    // ---------------------------------------------------------------- the ledger

    method RecordCapture(id: nat, amount: int, fee: int, credited: Account) returns (error: Option<Error>)
      modifies db
      ensures Performed(PledgeService.RecordCapture(old(db.View()), id, amount, fee, credited), db.View(), error)
    {
      var accounts := db.accounts;
      var txn := db.InsertLedgerTransaction(LedgerTxn(PledgeCapture, id));
      if txn.None? {
        return None;
      }
      var escrow := db.GetOrCreateAccount(Account(PlatformEscrow, None));
      AccountIdStable(db.accounts, Account(PlatformEscrow, None), credited);
      var credit := db.GetOrCreateAccount(credited);
      var rows := [Entry(txn.value, escrow, Debit, amount), Entry(txn.value, credit, Direction.Credit, amount)];
      if fee > 0 {
        AccountIdStable(db.accounts, Account(PlatformEscrow, None), Account(GatewayFeeExpense, None));
        AccountIdStable(db.accounts, credited, Account(GatewayFeeExpense, None));
        var feeExpense := db.GetOrCreateAccount(Account(GatewayFeeExpense, None));
        rows := rows + [Entry(txn.value, feeExpense, Debit, fee), Entry(txn.value, escrow, Direction.Credit, fee)];
      }
      assert rows == CaptureRows(CaptureAccounts(accounts, fee, credited), txn.value, amount, fee, credited);
      error := db.InsertLedgerEntries(rows);
    }

    // ---------------------------------------------------------------- captures

    /** Also hands back the pledge struct, whose status the caller reports. */
    method HoldForRefund(id: nat, p: Pledge, c: Capture, reason: RefundReason)
      returns (error: Option<Error>, q: Pledge)
      modifies db
      ensures Performed(PledgeService.HoldForRefund(old(db.View()), id, p, c, reason), db.View(), error)
      ensures error.None? ==> q.status == RefundPending
    {
      q := p;
      error := db.MarkPledgeRefundPending(id, c.paymentId, reason);
      if error.Some? {
        return;
      }
      q := q.(status := RefundPending, paymentId := Some(c.paymentId), reason := Some(reason));
      error := RecordCapture(id, c.amount, WrappingAdd(c.fee, c.tax), Account(BackerRefundPayable, Some(p.backer)));
      if error.Some? {
        return;
      }
      db.InsertOutbox(RefundRequired(id, p.campaign, p.backer, c.amount, c.paymentId, reason));
    }

    method CountTotals(id: nat, p: Pledge, c: Capture) returns (error: Option<Error>)
      modifies db
      ensures Performed(PledgeService.CountTotals(old(db.View()), id, p, c), db.View(), error)
    {
      error := db.MarkPledgeCaptured(id, c.paymentId);
      if error.Some? {
        return;
      }
      error := db.IncrementCampaignRaised(id, p);
      if error.Some? {
        return;
      }
      if p.tier.Some? {
        error := db.IncrementTierClaimed(p.tier.value);
      }
    }

    method ApplyCapture(id: nat, p: Pledge, c: Capture) returns (error: Option<Error>, q: Pledge)
      modifies db
      ensures Performed(PledgeService.ApplyCapture(old(db.View()), id, p, c), db.View(), error)
      ensures error.None? ==> q.status == if Booked(p.status) then p.status
                                          else if Counts(old(db.View()), p, c) then Captured
                                          else RefundPending
    {
      q := p;
      if Booked(p.status) {
        return None, q;
      }
      if !CanTransitionTo(p.status, Captured) {
        return Some(Error.IllegalTransition), q;
      }
      if c.amount != p.amount {
        error, q := HoldForRefund(id, p, c, AmountMismatch);
        return;
      }
      if p.tier.Some? {
        if p.tier.value >= |db.tiers| {
          return Some(NoRows), q;
        }
        if SoldOut(db.tiers[p.tier.value]) {
          error, q := HoldForRefund(id, p, c, SoldOutWhilePaying);
          return;
        }
      }
      error := CountTotals(id, p, c);
      if error.Some? {
        return;
      }
      q := q.(status := Captured, paymentId := Some(c.paymentId));
      error := RecordCapture(id, p.amount, WrappingAdd(c.fee, c.tax), Account(CampaignEscrow, Some(p.campaign)));
      if error.Some? {
        return;
      }
      db.InsertOutbox(PledgeCaptured(id, p.campaign, p.backer, p.amount));
    }

    method ApplyFailure(id: nat, p: Pledge)
      modifies db
      ensures db.View() == PledgeService.ApplyFailure(old(db.View()), id, p)
    {
      if p.status == Failed || Terminal(p.status) || !CanTransitionTo(p.status, Failed) {
        return;
      }
      db.SetPledgeStatus(id, Failed);
    }

    // ---------------------------------------------------------------- requests

    /**
     * `order` is the provider's answer to the order request: None when it could not be reached. An error of
     * AttachOrder, a taken order id or `attachFault`, is only logged.
     */
    method CreatePledge(x: CreateInput, now: int, fault: bool, order: Option<string>, attachFault: bool)
      returns (error: Option<Error>, id: Option<nat>)
      modifies db
      ensures var o := Do(old(db.View()), CreateBody(old(db.View()), x, now), fault);
              if o.error.Some? then db.View() == o.tables && error == o.error && id.None?
              else if order.None? then db.View() == o.tables && error == Some(ProviderUnavailable) && id.None?
              else
                && error.None? && id == Some(|old(db.pledges)|)
                && db.View() == if attachFault then o.tables else Step(o.tables, Attach(|old(db.pledges)|, order.value))
    {
      var saved := db.View();
      id := None;
      error := InsertChecked(x, now);
      error := db.Finish(saved, error, fault);
      if error.Some? {
        return;
      }
      if order.None? {
        return Some(ProviderUnavailable), None;
      }
      id := Some(|db.pledges| - 1);
      if !attachFault {
        var _ := db.AttachOrder(|db.pledges| - 1, order.value);
      }
    }

    /** The transaction body of CreatePledge: every business check, then the row. */
    method InsertChecked(x: CreateInput, now: int) returns (error: Option<Error>)
      modifies db
      ensures Performed(CreateBody(old(db.View()), x, now), db.View(), error)
    {
      if x.campaign >= |db.campaigns| || db.campaigns[x.campaign].deadline.None? {
        return Some(NoRows);
      }
      var c := db.campaigns[x.campaign];
      if !c.live {
        return Some(CampaignNotLive);
      }
      if now > c.deadline.value - 60 {
        return Some(DeadlinePassed);
      }
      if c.creator == x.backer {
        return Some(CreatorCannotPledge);
      }
      if x.tier.Some? {
        if x.tier.value >= |db.tiers| {
          return Some(NoRows);
        }
        var tier := db.tiers[x.tier.value];
        if tier.campaign != x.campaign {
          return Some(TierMismatch);
        }
        if x.amount < tier.minAmount {
          return Some(AmountBelowTier);
        }
        if SoldOut(tier) {
          return Some(TierSoldOut);
        }
      }
      error := db.InsertPledge(NewPledge(x));
    }

    /** Settles a pledge from the checkout callback; the reported status is the one on the row. */
    method ConfirmPayment(x: ConfirmInput, signed: bool, payments: Option<seq<Payment>>, fault: bool)
      returns (error: Option<Error>, status: Status)
      modifies db
      ensures var o := Confirm(old(db.View()), x, signed, payments, fault);
              db.View() == o.tables && error == o.error
      ensures error.None? ==> x.pledge < |db.pledges| && status == db.pledges[x.pledge].status
    {
      status := Created;
      if x.orderId == "" {
        return Some(MissingOrder), status;
      }
      if !signed {
        return Some(BadSignature), status;
      }
      if payments.None? {
        return Some(ProviderUnavailable), status;
      }
      var paid := ChooseCapture(payments.value, x.paymentId);
      var saved := db.View();
      error, status := ConfirmLocked(x, paid);
      error := db.Finish(saved, error, fault);
    }

    method ConfirmLocked(x: ConfirmInput, paid: Option<Capture>) returns (error: Option<Error>, status: Status)
      modifies db
      ensures Performed(ConfirmBody(old(db.View()), x, paid), db.View(), error)
      ensures error.None? ==> x.pledge < |db.pledges| && status == db.pledges[x.pledge].status
    {
      status := Created;
      if x.pledge >= |db.pledges| {
        return Some(PledgeNotFound), status;
      }
      var p := db.pledges[x.pledge];
      if p.backer != x.caller {
        return Some(NotYourPledge), status;
      }
      if p.orderId != x.orderId {
        return Some(OrderMismatch), status;
      }
      if paid.Some? {
        ghost var before := db.View();
        var q;
        error, q := ApplyCapture(x.pledge, p, paid.value);
        if error.None? {
          CaptureRow(before, x.pledge, paid.value);
        }
        status := q.status;
        return;
      }
      return None, p.status;
    }

    method ResolvePledge(e: Webhook) returns (r: Result<nat>)
      ensures r == Resolve(db.View(), e)
      ensures r.Ok? ==> BelongsTo(db.View(), e, r.value)
      ensures r.Err? ==> forall id: nat :: !BelongsTo(db.View(), e, id)
      ensures r == Err(NoOrderId) <==> e.orderId == ""
      ensures r == Err(MalformedNote) ==> e.note.BadNote?
    {
      if e.orderId == "" {
        return Err(NoOrderId);
      }
      var found := FindOrder(db.pledges, e.orderId);
      if found.Some? {
        return Ok(found.value);
      }
      match e.note
      case NoNote => return Err(NoRows);
      case BadNote => return Err(MalformedNote);
      case NoteId(id) =>
        if id >= |db.pledges| {
          return Err(NoRows);
        }
        return Ok(id);
    }

    /** The transaction body of HandleWebhook: the event row first, so a repeat fails before anything else. */
    method ProcessEvent(e: Webhook) returns (error: Option<Error>)
      modifies db
      ensures Performed(WebhookBody(old(db.View()), e), db.View(), error)
    {
      error := db.InsertPaymentEvent(PaymentEvent(e.id, e.kind, NotedPledge(e.note)));
      if error.Some? || e.kind.OtherEvent? {
        return;
      }
      var r := ResolvePledge(e);
      if r.Err? {
        return Some(r.error);
      }
      var p := db.pledges[r.value];
      if e.kind.PaymentCaptured? {
        var q;
        error, q := ApplyCapture(r.value, p, e.capture);
      } else {
        ApplyFailure(r.value, p);
      }
    }

    /**
     * `answer` is SETNX's reply and `sets` whether it takes effect; for an honest Redis the two agree with
     * the keys it holds. `released` says whether DEL is called, so that a retry is not swallowed, and
     * `deletes` whether it takes effect.
     */
    method HandleWebhook(redis: Redis, e: Webhook, answer: Option<bool>, sets: bool, fault: bool, deletes: bool)
      returns (error: Option<Error>, released: bool)
      modifies db, redis
      ensures var h := Handle(old(db.View()), e, answer, fault);
              && db.View() == h.outcome.tables && error == h.outcome.error && released == h.releases
              && redis.keys == if e.id == "" then old(redis.keys)
                               else KeysEnd(KeysSet(old(redis.keys), e.id, sets), e.id, h.releases, deletes)
    {
      if e.id == "" {
        return Some(MalformedEvent), false;
      }
      redis.SetNX(e.id, sets);
      if answer == Some(false) {
        return Some(DuplicateEvent), false;
      }
      var saved := db.View();
      error := ProcessEvent(e);
      error := db.Finish(saved, error, fault);
      released := error.Some? && error.value != DuplicateEvent;
      if released {
        redis.Del(e.id, deletes);
      }
    }
  }
}
