/**
 * What a capture books, told by its own numbers: for every run, each account's balance is what the captures
 * applied along it moved, so the fee account holds the fees and taxes of exactly those captures.
 */
module PledgeBooks {
  import opened Results
  import opened PledgeModel
  import opened PledgeQueries
  import opened PledgeService
  import opened PledgeInvariant
  import opened CaptureProofs
  import opened LedgerProofs
  import opened PledgeRuns
  import opened PledgeHistory
  import opened PledgeFate

  const FEE_ACCOUNT := Account(GatewayFeeExpense, None)
  const ESCROW := Account(PlatformEscrow, None)

  /** The gateway's fee and tax as the books take them: a sum beyond 64 bits wraps, and only a positive one is booked. */
  function FeeBooked(c: Capture): int {
    var sum: int := c.fee + c.tax;
    if sum < -0x8000_0000_0000_0000 then sum + 0x1_0000_0000_0000_0000
    else if 0 < sum <= 0x7FFF_FFFF_FFFF_FFFF then sum
    else 0
  }

  /** By how much capture `c` of pledge `p` moves the balance of account `k`. */
  function BookedOn(k: Account, p: Pledge, c: Capture, counts: bool): int {
    var paid: int := c.amount;
    if k == FEE_ACCOUNT then FeeBooked(c)
    else if k == ESCROW then paid - FeeBooked(c)
    else if counts && k == Account(CampaignEscrow, Some(p.campaign)) then -paid
    else if !counts && k == Account(BackerRefundPayable, Some(p.backer)) then -paid
    else 0
  }

  lemma {:induction false} FeeIsWrapped(c: Capture)
    ensures Positive(WrappingAdd(c.fee, c.tax)) == FeeBooked(c)
    ensures 0 <= c.fee + c.tax <= MAX_BIGINT ==> FeeBooked(c) == c.fee + c.tax
  {
    WrappingAddWraps(c.fee, c.tax);
  }

  lemma {:induction false} MovedIsBooked(k: Account, p: Pledge, c: Capture, counts: bool)
    ensures Moved(k, c.amount, WrappingAdd(c.fee, c.tax),
                  if counts then Account(CampaignEscrow, Some(p.campaign)) else Account(BackerRefundPayable, Some(p.backer)))
            == BookedOn(k, p, c, counts)
  {
    FeeIsWrapped(c);
  }

  /** The books `after` differ from `before` by one capture's amounts, on every account. */
  ghost predicate CaptureBooked(before: Books, after: Books, p: Pledge, c: Capture, counts: bool) {
    forall k :: Balance(after.accounts, after.entries, k)
                == Balance(before.accounts, before.entries, k) + BookedOn(k, p, c, counts)
  }

  lemma {:induction false} MovesAreBooked(before: Books, after: Books, p: Pledge, c: Capture, counts: bool)
    requires BalancesMoved(before, after, c.amount, WrappingAdd(c.fee, c.tax),
                  if counts then Account(CampaignEscrow, Some(p.campaign)) else Account(BackerRefundPayable, Some(p.backer)))
    ensures CaptureBooked(before, after, p, c, counts)
  {
    forall k ensures Balance(after.accounts, after.entries, k)
                     == Balance(before.accounts, before.entries, k) + BookedOn(k, p, c, counts)
    {
      MovedIsBooked(k, p, c, counts);
    }
  }

  /** Applying a capture books it when it is applied, and otherwise leaves the books alone. */
  ghost predicate BooksFollow(t: Tables, id: nat, c: Capture, t': Tables)
    requires PledgeRefs(t.campaigns, t.tiers, t.pledges) && id < |t.pledges|
  {
    if !Booked(t.pledges[id].status) && Recordable(t, id, c)
    then CaptureBooked(BooksOf(t), BooksOf(t'), t.pledges[id], c, Counts(t, t.pledges[id], c))
    else BooksOf(t') == BooksOf(t)
  }

  lemma {:induction false} AppliedIsBooked(t: Tables, id: nat, c: Capture)
    requires Inv(t) && id < |t.pledges| && !Booked(t.pledges[id].status)
    requires ApplyCapture(t, id, t.pledges[id], c).Ok?
    ensures CaptureBooked(BooksOf(t), BooksOf(ApplyCapture(t, id, t.pledges[id], c).value), t.pledges[id], c,
                          Counts(t, t.pledges[id], c))
  {
    var p := t.pledges[id];
    var t' := ApplyCapture(t, id, p, c).value;
    assert LedgerTxn(PledgeCapture, id) !in t.txns;
    if Counts(t, p, c) {
      CountedEffectHolds(t, id, p, c);
    } else {
      HeldEffectHolds(t, id, p, c, if c.amount != p.amount then AmountMismatch else SoldOutWhilePaying);
    }
    MovesAreBooked(BooksOf(t), BooksOf(t'), p, c, Counts(t, p, c));
  }

  lemma {:induction false} CaptureFollows(t: Tables, id: nat, c: Capture)
    requires Inv(t) && id < |t.pledges|
    ensures BooksFollow(t, id, c, Do(t, ApplyCapture(t, id, t.pledges[id], c), false).tables)
  {
    var p := t.pledges[id];
    var r := ApplyCapture(t, id, p, c);
    if !Booked(p.status) {
      CaptureRefusedExactly(t, id, c);
      if r.Ok? {
        AppliedIsBooked(t, id, c);
      }
    }
    if r.Ok? {
      CaptureKeepsInv(t, id, c);
    }
  }

  lemma {:induction false} SameFollowing(t: Tables, row: PaymentEvent, id: nat, c: Capture, t': Tables)
    requires PledgeRefs(t.campaigns, t.tiers, t.pledges) && id < |t.pledges|
    ensures BooksFollow(t.(events := t.events + [row]), id, c, t') == BooksFollow(t, id, c, t')
  {
    SameVerdict(t, row, id, c);
  }

  lemma {:induction false} WebhookFollows(t: Tables, e: Webhook)
    requires Inv(t) && Arrives(t, e, false) && e.kind.PaymentCaptured?
    ensures Resolve(t, e).value < |t.pledges|
    ensures BooksFollow(t, Resolve(t, e).value, e.capture, Deliver(t, e, false).tables)
  {
    var row := PaymentEvent(e.id, e.kind, NotedPledge(e.note));
    var t1 := t.(events := t.events + [row]);
    var id := Resolve(t, e).value;
    assert WebhookBody(t, e) == ApplyCapture(t1, id, t1.pledges[id], e.capture) by {
      ResolveIgnoresEvents(t, e, t1.events);
    }
    RecordedEventKeepsInv(t, row);
    CaptureFollows(t1, id, e.capture);
    SameFollowing(t, row, id, e.capture, Deliver(t, e, false).tables);
  }

  lemma {:induction false} QuietWebhookBooksNothing(t: Tables, e: Webhook, fault: bool)
    requires !(Arrives(t, e, fault) && e.kind.PaymentCaptured?)
    ensures BooksOf(Deliver(t, e, fault).tables) == BooksOf(t)
  {
    var t1 := t.(events := t.events + [PaymentEvent(e.id, e.kind, NotedPledge(e.note))]);
    ResolveIgnoresEvents(t, e, t1.events);
  }

  /** The step applies a capture: which pledge's is told by Brings. */
  ghost predicate Applies(t: Tables, op: Op)
    requires PledgeRefs(t.campaigns, t.tiers, t.pledges)
  {
    Brings(t, op).Some? && Captures(t, op, Brings(t, op).value.0)
  }

  /** What the step books on account `k`: the amounts of the capture it applies, if it applies one. */
  ghost function StepBooks(t: Tables, op: Op, k: Account): int
    requires PledgeRefs(t.campaigns, t.tiers, t.pledges)
  {
    if !Applies(t, op) then 0
    else
      var (id, c) := Brings(t, op).value;
      BookedOn(k, t.pledges[id], c, Counts(t, t.pledges[id], c))
  }

  lemma {:induction false} ConfirmFollows(t: Tables, op: Op, k: Account)
    requires Inv(t) && op.ConfirmPayment?
    ensures Balance(Step(t, op).accounts, Step(t, op).entries, k)
            == Balance(t.accounts, t.entries, k) + StepBooks(t, op, k)
  {
    if Brings(t, op).Some? {
      CaptureFollows(t, op.confirm.pledge, Brings(t, op).value.1);
    }
  }

  lemma {:induction false} DeliveryFollows(t: Tables, op: Op, k: Account)
    requires Inv(t) && op.DeliverWebhook?
    ensures Balance(Step(t, op).accounts, Step(t, op).entries, k)
            == Balance(t.accounts, t.entries, k) + StepBooks(t, op, k)
  {
    StepDelivers(t, op.event, op.fault);
    if Arrives(t, op.event, op.fault) && op.event.kind.PaymentCaptured? {
      WebhookFollows(t, op.event);
    } else {
      QuietWebhookBooksNothing(t, op.event, op.fault);
    }
  }

  /** On every account, a step books exactly the amounts of the capture it applies. */
  lemma {:induction false} StepBooksExactly(t: Tables, op: Op, k: Account)
    requires Inv(t)
    ensures Balance(Step(t, op).accounts, Step(t, op).entries, k)
            == Balance(t.accounts, t.entries, k) + StepBooks(t, op, k)
  {
    match op
    case DeliverWebhook(_, _) => DeliveryFollows(t, op, k);
    case ConfirmPayment(_, _, _, _) => ConfirmFollows(t, op, k);
    case CreatePledge(x, now, _) => CreateChecked(t, x, now);
    case _ =>
  }

  /** The sum of what the captures applied along the run book on account `k`. */
  ghost function RunBooks(t: Tables, ops: seq<Op>, k: Account): int
    requires Inv(t)
    decreases |ops|
  {
    if ops == [] then 0
    else
      StepKeepsInv(t, ops[0]);
      StepBooks(t, ops[0], k) + RunBooks(Step(t, ops[0]), ops[1..], k)
  }

  /** For every run and every account: the balance is what the captures applied have moved. */
  lemma {:induction false} BooksAddUp(t: Tables, ops: seq<Op>, k: Account)
    requires Inv(t)
    ensures Balance(Run(t, ops).accounts, Run(t, ops).entries, k)
            == Balance(t.accounts, t.entries, k) + RunBooks(t, ops, k)
    decreases |ops|
  {
    if ops != [] {
      StepBooksExactly(t, ops[0], k);
      StepKeepsInv(t, ops[0]);
      BooksAddUp(Step(t, ops[0]), ops[1..], k);
    }
  }

  /** Fee and tax of every capture the run applies, added up; the step's own numbers, where they are in range. */
  ghost function FeesAndTaxes(t: Tables, ops: seq<Op>): int
    requires Inv(t)
    decreases |ops|
  {
    if ops == [] then 0
    else
      StepKeepsInv(t, ops[0]);
      (if Applies(t, ops[0]) then Brings(t, ops[0]).value.1.fee + Brings(t, ops[0]).value.1.tax else 0)
      + FeesAndTaxes(Step(t, ops[0]), ops[1..])
  }

  /** Every capture the run applies has a fee and a tax that add up to an amount of the books' range. */
  ghost predicate OrdinaryFees(t: Tables, ops: seq<Op>)
    requires Inv(t)
    decreases |ops|
  {
    ops == [] ||
    (&& (Applies(t, ops[0]) ==> 0 <= Brings(t, ops[0]).value.1.fee + Brings(t, ops[0]).value.1.tax <= MAX_BIGINT)
     && (StepKeepsInv(t, ops[0]); OrdinaryFees(Step(t, ops[0]), ops[1..])))
  }

  lemma {:induction false} FeesInRange(t: Tables, ops: seq<Op>)
    requires Inv(t) && OrdinaryFees(t, ops)
    ensures RunBooks(t, ops, FEE_ACCOUNT) == FeesAndTaxes(t, ops)
    decreases |ops|
  {
    if ops != [] {
      StepKeepsInv(t, ops[0]);
      FeesInRange(Step(t, ops[0]), ops[1..]);
      if Applies(t, ops[0]) {
        FeeIsWrapped(Brings(t, ops[0]).value.1);
      }
    }
  }

  /**
   * From the empty database: the fee account holds what the captures applied book on it, which for ordinary
   * fees is the sum of their fees and taxes.
   */
  lemma {:induction false} FeesAddUp(ops: seq<Op>)
    ensures Inv(EMPTY)
    ensures var t := Run(EMPTY, ops);
            && Balance(t.accounts, t.entries, FEE_ACCOUNT) == RunBooks(EMPTY, ops, FEE_ACCOUNT)
            && (OrdinaryFees(EMPTY, ops) ==> Balance(t.accounts, t.entries, FEE_ACCOUNT) == FeesAndTaxes(EMPTY, ops))
  {
    EmptySatisfiesInv();
    BooksAddUp(EMPTY, ops, FEE_ACCOUNT);
    if OrdinaryFees(EMPTY, ops) {
      FeesInRange(EMPTY, ops);
    }
  }
}
