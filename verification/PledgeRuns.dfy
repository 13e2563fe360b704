/**
 * Every step of the pledge system keeps the invariant, so every reachable state satisfies it; the
 * consequences a bookkeeper would ask for follow.
 */
module PledgeRuns {
  import opened Results
  import opened PledgeModel
  import opened PledgeQueries
  import opened PledgeService
  import opened PledgeInvariant
  import opened DomainProofs
  import opened CaptureProofs
  import opened LedgerProofs
  import opened Sums

  // ---------------------------------------------------------------- one step at a time

  lemma {:induction false} AddCampaignKeepsInv(t: Tables, creator: nat)
    requires Inv(t)
    ensures Inv(Step(t, AddCampaign(creator)))
  {
    var n := |t.campaigns|;
    SumZero(t.pledges, Raising(n));
    assert Backers(t.pledges, n) == {};
  }

  lemma {:induction false} AddTierKeepsInv(t: Tables, campaign: nat, minAmount: int, limit: Option<int>)
    requires Inv(t)
    ensures Inv(Step(t, AddTier(campaign, minAmount, limit)))
  {
    SumZero(t.pledges, Claiming(|t.tiers|));
  }

  lemma {:induction false} NewPledgeAnnounced(t: Tables, q: Pledge)
    requires Announced(t.pledges, t.outbox) && q.status == Created
    ensures Announced(t.pledges + [q], t.outbox)
  {
    forall x | x in t.outbox ensures x.pledge != |t.pledges| {
      var i :| 0 <= i < |t.outbox| && t.outbox[i] == x;
      SumAtLeast(t.outbox, i, Announcing(|t.pledges|));
      SumAtLeast(t.outbox, i, Refunding(|t.pledges|));
    }
  }

  /** What CreatePledge checks: the campaign, the minute before its deadline, the backer, the tier, the amount. */
  predicate Acceptable(t: Tables, x: CreateInput, now: int) {
    && x.campaign < |t.campaigns|
    && var c := t.campaigns[x.campaign];
    && c.live && c.deadline.Some? && now + 60 <= c.deadline.value && c.creator != x.backer
    && (x.tier.Some? ==>
          && x.tier.value < |t.tiers|
          && var r := t.tiers[x.tier.value];
          && r.campaign == x.campaign && x.amount >= r.minAmount && (r.limit.Some? ==> r.claimed < r.limit.value))
    && x.amount > 0
  }

  /** A pledge is inserted exactly when that holds and no other pledge is still waiting for its order. */
  lemma {:induction false} CreateChecked(t: Tables, x: CreateInput, now: int)
    ensures CreateBody(t, x, now).Ok? <==>
              Acceptable(t, x, now) && forall i | 0 <= i < |t.pledges| :: t.pledges[i].orderId != ""
    ensures CreateBody(t, x, now).Ok? ==>
              CreateBody(t, x, now).value == t.(pledges := t.pledges + [NewPledge(x)])
  {
  }

  lemma {:induction false} CreateKeepsInv(t: Tables, x: CreateInput, now: int)
    requires Inv(t) && CreateBody(t, x, now).Ok?
    ensures Inv(CreateBody(t, x, now).value)
  {
    CreateChecked(t, x, now);
    var q := NewPledge(x);
    InsertedRowFits(t, q);
    AddUncounted(t.campaigns, t.tiers, t.pledges, q);
    NewPledgeAnnounced(t, q);
  }

  lemma {:induction false} InsertedRowFits(t: Tables, q: Pledge)
    requires PledgeRefs(t.campaigns, t.tiers, t.pledges) && KeysUnique(t.pledges) && BookedOnce(t.pledges, t.txns)
    requires q.campaign < |t.campaigns| && q.amount > 0 && q.status == Created && q.paymentId.None?
    requires q.tier.Some? ==> q.tier.value < |t.tiers| && t.tiers[q.tier.value].campaign == q.campaign
    requires FindOrder(t.pledges, q.orderId).None?
    ensures PledgeRefs(t.campaigns, t.tiers, t.pledges + [q]) && KeysUnique(t.pledges + [q])
    ensures BookedOnce(t.pledges + [q], t.txns)
  {
  }

  lemma {:induction false} AttachKeepsInv(t: Tables, id: nat, orderId: string)
    requires Inv(t) && AttachOrder(t, id, orderId).Ok?
    ensures Inv(AttachOrder(t, id, orderId).value)
  {
    if id < |t.pledges| {
      NeutralUpdate(t.campaigns, t.tiers, t.pledges, id, t.pledges[id].(orderId := orderId));
    }
  }

  lemma {:induction false} FailedKeepsDomain(t: Tables, id: nat, t': Tables)
    requires DomainInv(t) && id < |t.pledges| && t.pledges[id].status in {Created, Authorized}
    requires t' == t.(pledges := t.pledges[id := t.pledges[id].(status := Failed)])
    ensures DomainInv(t')
  {
    NeutralUpdate(t.campaigns, t.tiers, t.pledges, id, t'.pledges[id]);
  }

  lemma {:induction false} FailedKeepsLedger(t: Tables, id: nat, t': Tables)
    requires LedgerInv(t) && id < |t.pledges| && t.pledges[id].status in {Created, Authorized}
    requires t' == t.(pledges := t.pledges[id := t.pledges[id].(status := Failed)])
    ensures LedgerInv(t')
  {
  }

  lemma {:induction false} FailureKeepsInv(t: Tables, id: nat)
    requires Inv(t) && id < |t.pledges|
    ensures Inv(ApplyFailure(t, id, t.pledges[id]))
  {
    var t' := ApplyFailure(t, id, t.pledges[id]);
    if t.pledges[id].status in {Created, Authorized} {
      FailedKeepsDomain(t, id, t');
      FailedKeepsLedger(t, id, t');
    }
  }

  lemma {:induction false} WebhookKeepsInv(t: Tables, e: Webhook)
    requires Inv(t) && WebhookBody(t, e).Ok?
    ensures Inv(WebhookBody(t, e).value)
  {
    var t1 := InsertEvent(t, PaymentEvent(e.id, e.kind, NotedPledge(e.note))).value;
    assert Inv(t1);
    if !e.kind.OtherEvent? {
      var id := Resolve(t1, e).value;
      if e.kind.PaymentCaptured? {
        CaptureKeepsInv(t1, id, e.capture);
      } else {
        FailureKeepsInv(t1, id);
      }
    }
  }

  lemma {:induction false} ConfirmKeepsInv(t: Tables, x: ConfirmInput, paid: Option<Capture>)
    requires Inv(t) && ConfirmBody(t, x, paid).Ok?
    ensures Inv(ConfirmBody(t, x, paid).value)
  {
    if paid.Some? {
      CaptureKeepsInv(t, x.pledge, paid.value);
    }
  }

  lemma {:induction false} DoKeepsInv(t: Tables, body: Result<Tables>, fault: bool)
    requires Inv(t) && (body.Ok? ==> Inv(body.value))
    ensures Inv(Do(t, body, fault).tables)
  {
  }

  lemma {:induction false} PublishKeepsInv(t: Tables, c: nat, live: bool, deadline: Option<int>)
    requires Inv(t)
    ensures Inv(Step(t, PublishCampaign(c, live, deadline)))
  {
  }

  lemma {:induction false} CreateStepKeepsInv(t: Tables, x: CreateInput, now: int, fault: bool)
    requires Inv(t)
    ensures Inv(Step(t, CreatePledge(x, now, fault)))
  {
    if CreateBody(t, x, now).Ok? {
      CreateKeepsInv(t, x, now);
    }
    DoKeepsInv(t, CreateBody(t, x, now), fault);
  }

  lemma {:induction false} WebhookStepKeepsInv(t: Tables, e: Webhook, fault: bool)
    requires Inv(t)
    ensures Inv(Step(t, DeliverWebhook(e, fault)))
  {
    var r := WebhookBody(t, e);
    assert Inv(Do(t, r, fault).tables) by {
      if r.Ok? {
        WebhookKeepsInv(t, e);
      }
      DoKeepsInv(t, r, fault);
    }
    DeliverIs(t, e, fault);
  }

  lemma {:induction false} DeliverIs(t: Tables, e: Webhook, fault: bool)
    ensures Step(t, DeliverWebhook(e, fault)) == if e.id == "" then t else Do(t, WebhookBody(t, e), fault).tables
  {
  }

  lemma {:induction false} ConfirmStepKeepsInv(t: Tables, x: ConfirmInput, signed: bool, payments: Option<seq<Payment>>,
                                               fault: bool)
    requires Inv(t)
    ensures Inv(Step(t, ConfirmPayment(x, signed, payments, fault)))
  {
    if payments.Some? {
      var paid := FindCapture(payments.value, x.paymentId);
      var r := ConfirmBody(t, x, paid);
      assert Inv(Do(t, r, fault).tables) by {
        if r.Ok? {
          ConfirmKeepsInv(t, x, paid);
        }
        DoKeepsInv(t, r, fault);
      }
      ConfirmIs(t, x, signed, payments.value, fault);
    }
  }

  lemma {:induction false} ConfirmIs(t: Tables, x: ConfirmInput, signed: bool, payments: seq<Payment>, fault: bool)
    ensures Step(t, ConfirmPayment(x, signed, Some(payments), fault)) ==
            if x.orderId == "" || !signed then t
            else Do(t, ConfirmBody(t, x, FindCapture(payments, x.paymentId)), fault).tables
  {
  }

  lemma {:induction false} StepKeepsInv(t: Tables, op: Op)
    requires Inv(t)
    ensures Inv(Step(t, op))
  {
    match op
    case AddCampaign(creator) => AddCampaignKeepsInv(t, creator);
    case AddTier(campaign, minAmount, limit) => AddTierKeepsInv(t, campaign, minAmount, limit);
    case PublishCampaign(c, live, deadline) => PublishKeepsInv(t, c, live, deadline);
    case CreatePledge(x, now, fault) => CreateStepKeepsInv(t, x, now, fault);
    case Attach(id, orderId) => if AttachOrder(t, id, orderId).Ok? { AttachKeepsInv(t, id, orderId); }
    case DeliverWebhook(e, fault) => WebhookStepKeepsInv(t, e, fault);
    case ConfirmPayment(x, signed, payments, fault) => ConfirmStepKeepsInv(t, x, signed, payments, fault);
  }

  lemma {:induction false} RunKeepsInv(t: Tables, ops: seq<Op>)
    requires Inv(t)
    ensures Inv(Run(t, ops))
    decreases |ops|
  {
    if ops != [] {
      StepKeepsInv(t, ops[0]);
      RunKeepsInv(Step(t, ops[0]), ops[1..]);
    }
  }

  // ---------------------------------------------------------------- what every reachable state satisfies

  /**
   * For any interleaving from an empty database: a campaign's total is the sum of its counted pledges
   * and the credit in its escrow account, and its backer count is the number of distinct backers.
   */
  lemma {:induction false} CampaignTotals(ops: seq<Op>, c: nat)
    requires c < |Run(EMPTY, ops).campaigns|
    ensures var t := Run(EMPTY, ops);
            && t.campaigns[c].raised == Sum(t.pledges, Raising(c))
            && t.campaigns[c].raised == CreditBalance(t.accounts, t.entries, Account(CampaignEscrow, Some(c)))
            && t.campaigns[c].backers == |Backers(t.pledges, c)|
  {
    EmptySatisfiesInv();
    RunKeepsInv(EMPTY, ops);
  }

  /** A limited tier counts exactly its counted pledges and is never oversold. */
  lemma {:induction false} TierNeverOversold(ops: seq<Op>, r: nat)
    requires r < |Run(EMPTY, ops).tiers|
    ensures var t := Run(EMPTY, ops);
            && t.tiers[r].claimed == Sum(t.pledges, Claiming(r))
            && (t.tiers[r].limit.Some? ==> t.tiers[r].claimed <= t.tiers[r].limit.value)
  {
    EmptySatisfiesInv();
    RunKeepsInv(EMPTY, ops);
  }

  /** Entries belong to one account each, so adding up the accounts adds up the entries. */
  lemma {:induction false} AccountsAddUp(b: Books)
    requires BooksOk(b)
    ensures Sum(Ids(|b.accounts|), (a: nat) => Sum(b.entries, OnAccount(a))) == Sum(b.entries, (e: Entry) => Signed(e))
  {
    SumByGroup(b.entries, |b.accounts|, (e: Entry) => e.account, (e: Entry) => Signed(e), (a: nat) => OnAccount(a));
    var one := (a: nat) => Sum(b.entries, ((k: nat) => OnAccount(k))(a));
    var two := (a: nat) => Sum(b.entries, OnAccount(a));
    SumSame(Ids(|b.accounts|), one, two);
  }

  lemma {:induction false} TransactionsAddUp(b: Books)
    requires BooksOk(b)
    ensures Sum(b.entries, (e: Entry) => Signed(e)) == 0
  {
    SumByGroup(b.entries, |b.txns|, (e: Entry) => e.txn, (e: Entry) => Signed(e), (k: nat) => OfTxn(k));
    var one := (a: nat) => Sum(b.entries, ((k: nat) => OfTxn(k))(a));
    forall k | k in Ids(|b.txns|) ensures one(k) == 0 {
      assert one(k) == Imbalance(b.entries, k);
    }
    SumZero(Ids(|b.txns|), one);
  }

  /**
   * The ledger's identities: all accounts sum to zero, every transaction balances, platform escrow is
   * what was captured less the fees, each backer is owed what the refund events ask for, and a capture
   * is on the books exactly for the booked pledges.
   */
  lemma {:induction false} LedgerIdentities(ops: seq<Op>)
    ensures var t := Run(EMPTY, ops);
            && Sum(Ids(|t.accounts|), (a: nat) => Sum(t.entries, OnAccount(a))) == 0
            && (forall k: nat | k < |t.txns| :: Imbalance(t.entries, k) == 0)
            && Balance(t.accounts, t.entries, Account(PlatformEscrow, None))
               == Sum(t.outbox, Paid()) - Balance(t.accounts, t.entries, Account(GatewayFeeExpense, None))
            && (forall b: nat ::
                  CreditBalance(t.accounts, t.entries, Account(BackerRefundPayable, Some(b))) == Sum(t.outbox, Owing(b)))
            && (forall i: nat :: LedgerTxn(PledgeCapture, i) in t.txns <==> i < |t.pledges| && Booked(t.pledges[i].status))
  {
    EmptySatisfiesInv();
    RunKeepsInv(EMPTY, ops);
    var t := Run(EMPTY, ops);
    AccountsAddUp(BooksOf(t));
    TransactionsAddUp(BooksOf(t));
  }

  // ---------------------------------------------------------------- when a capture is refused

  /** The increments of a counted capture would leave the columns' range. */
  predicate TotalsOverflow(t: Tables, id: nat, p: Pledge)
    requires id < |t.pledges| && p.campaign < |t.campaigns|
    requires p.tier.Some? ==> p.tier.value < |t.tiers|
  {
    var camp := CountedCampaigns(t, id, p)[p.campaign];
    || camp.raised > MAX_BIGINT
    || camp.backers > MAX_INTEGER
    || (p.tier.Some? && t.tiers[p.tier.value].claimed + 1 > MAX_INTEGER)
  }

  /**
   * The service's comment says a capture is never refused. In a reachable state it is refused exactly
   * when the payment already belongs to another pledge, a counted capture would overflow a column, or a
   * capture to be held is not positive. The transition error, the oversold check and the ledger's early
   * return never occur.
   */
  lemma {:induction false} CaptureRefusedExactly(t: Tables, id: nat, c: Capture)
    requires Inv(t) && id < |t.pledges| && !Booked(t.pledges[id].status)
    ensures var p := t.pledges[id];
            ApplyCapture(t, id, p, c).Err? <==>
            || PaymentTaken(t.pledges, id, c.paymentId)
            || (if Counts(t, p, c) then TotalsOverflow(t, id, p) else c.amount <= 0)
    ensures ApplyCapture(t, id, t.pledges[id], c) != Err(IllegalTransition)
    ensures ApplyCapture(t, id, t.pledges[id], c) == Err(CheckViolation) ==> c.amount <= 0
  {
    var p := t.pledges[id];
    assert LedgerTxn(PledgeCapture, id) !in t.txns;
    if Counts(t, p, c) {
      CountedRefused(t, id, p, c);
    } else {
      HeldRefused(t, id, p, c, if c.amount != p.amount then AmountMismatch else SoldOutWhilePaying);
    }
  }

  lemma {:induction false} RowsAccepted(accounts: seq<Account>, entries: seq<Entry>, txn: nat, amount: int, fee: int,
                                        credited: Account)
    requires Account(PlatformEscrow, None) in accounts && credited in accounts
    requires fee > 0 ==> Account(GatewayFeeExpense, None) in accounts
    ensures InsertEntries(entries, CaptureRows(accounts, txn, amount, fee, credited)).Ok? <==> amount > 0
    ensures InsertEntries(entries, CaptureRows(accounts, txn, amount, fee, credited)).Err? ==>
              InsertEntries(entries, CaptureRows(accounts, txn, amount, fee, credited)).error == CheckViolation
  {
    var rows := CaptureRows(accounts, txn, amount, fee, credited);
    assert rows[0] in rows;
  }

  lemma {:induction false} RecordAccepted(t: Tables, id: nat, amount: int, fee: int, credited: Account)
    requires LedgerTxn(PledgeCapture, id) !in t.txns
    ensures RecordCapture(t, id, amount, fee, credited).Ok? <==> amount > 0
    ensures RecordCapture(t, id, amount, fee, credited).Err? ==>
              RecordCapture(t, id, amount, fee, credited).error == CheckViolation
  {
    RowsAccepted(CaptureAccounts(t.accounts, fee, credited), t.entries, |t.txns|, amount, fee, credited);
  }

  lemma {:induction false} CountedRefused(t: Tables, id: nat, p: Pledge, c: Capture)
    requires id < |t.pledges| && p == t.pledges[id] && p.campaign < |t.campaigns| && p.amount > 0
    requires p.tier.Some? ==> p.tier.value < |t.tiers| && !SoldOut(t.tiers[p.tier.value])
    requires LedgerTxn(PledgeCapture, id) !in t.txns
    ensures CountCapture(t, id, p, c).Err? <==>
            PaymentTaken(t.pledges, id, c.paymentId) || TotalsOverflow(t, id, p)
    ensures CountCapture(t, id, p, c).Err? ==> CountCapture(t, id, p, c).error in {UniqueViolation, OutOfRange}
  {
    SamePriors(t.pledges, id, CapturedRow(p, c), p.campaign, p.backer);
    var r := CountTotals(t, id, p, c);
    if r.Ok? {
      RecordAccepted(r.value, id, p.amount, WrappingAdd(c.fee, c.tax), Account(CampaignEscrow, Some(p.campaign)));
    }
  }

  lemma {:induction false} HeldRefused(t: Tables, id: nat, p: Pledge, c: Capture, reason: RefundReason)
    requires id < |t.pledges| && p == t.pledges[id]
    requires LedgerTxn(PledgeCapture, id) !in t.txns
    ensures HoldForRefund(t, id, p, c, reason).Err? <==> PaymentTaken(t.pledges, id, c.paymentId) || c.amount <= 0
    ensures HoldForRefund(t, id, p, c, reason) == Err(CheckViolation) ==> c.amount <= 0
    ensures HoldForRefund(t, id, p, c, reason).Err? ==>
              HoldForRefund(t, id, p, c, reason).error in {UniqueViolation, CheckViolation}
  {
    var r := MarkRefundPending(t, id, c.paymentId, reason);
    if r.Ok? {
      RecordAccepted(r.value, id, c.amount, WrappingAdd(c.fee, c.tax), Account(BackerRefundPayable, Some(p.backer)));
    }
  }

  /** How a request's transaction ends. */
  function ErrorOf(t: Tables, op: Op): Option<Error> {
    match op
    case CreatePledge(x, now, fault) => Do(t, CreateBody(t, x, now), fault).error
    case DeliverWebhook(e, fault) => Deliver(t, e, fault).error
    case ConfirmPayment(x, signed, payments, fault) => Confirm(t, x, signed, payments, fault).error
    case _ => None
  }

  /** In a reachable state no request's transaction is refused by the deferred balance trigger. */
  lemma {:induction false} TriggerNeverFires(t: Tables, op: Op)
    requires Inv(t)
    ensures ErrorOf(t, op) != Some(Unbalanced)
  {
    match op
    case CreatePledge(x, now, _) =>
      if CreateBody(t, x, now).Ok? {
        CreateKeepsInv(t, x, now);
      }
    case DeliverWebhook(e, _) =>
      if WebhookBody(t, e).Ok? {
        WebhookKeepsInv(t, e);
      } else {
        WebhookErrors(t, e);
      }
    case ConfirmPayment(x, _, payments, _) =>
      if payments.Some? {
        var paid := FindCapture(payments.value, x.paymentId);
        if ConfirmBody(t, x, paid).Ok? {
          ConfirmKeepsInv(t, x, paid);
        } else {
          ConfirmErrors(t, x, paid);
        }
      }
    case _ =>
  }

  lemma {:induction false} CaptureErrors(t: Tables, id: nat, c: Capture)
    requires Inv(t) && id < |t.pledges| && ApplyCapture(t, id, t.pledges[id], c).Err?
    ensures ApplyCapture(t, id, t.pledges[id], c).error != Unbalanced
  {
    var p := t.pledges[id];
    assert LedgerTxn(PledgeCapture, id) !in t.txns;
    if Counts(t, p, c) {
      CountedRefused(t, id, p, c);
    } else {
      HeldRefused(t, id, p, c, if c.amount != p.amount then AmountMismatch else SoldOutWhilePaying);
    }
  }

  lemma {:induction false} ConfirmErrors(t: Tables, x: ConfirmInput, paid: Option<Capture>)
    requires Inv(t) && ConfirmBody(t, x, paid).Err?
    ensures ConfirmBody(t, x, paid).error != Unbalanced
  {
    if x.pledge < |t.pledges| && paid.Some? && ApplyCapture(t, x.pledge, t.pledges[x.pledge], paid.value).Err? {
      CaptureErrors(t, x.pledge, paid.value);
    }
  }

  lemma {:induction false} WebhookErrors(t: Tables, e: Webhook)
    requires Inv(t) && WebhookBody(t, e).Err?
    ensures WebhookBody(t, e).error != Unbalanced
  {
    var ins := InsertEvent(t, PaymentEvent(e.id, e.kind, NotedPledge(e.note)));
    if ins.Ok? && e.kind.PaymentCaptured? && Resolve(ins.value, e).Ok? {
      assert Inv(ins.value);
      var id := Resolve(ins.value, e).value;
      if ApplyCapture(ins.value, id, ins.value.pledges[id], e.capture).Err? {
        CaptureErrors(ins.value, id, e.capture);
      }
    }
  }
}
