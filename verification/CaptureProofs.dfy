/** A capture, counted or held, keeps the whole invariant; its guards make two error branches unreachable. */
module CaptureProofs {
  import opened Results
  import opened PledgeModel
  import opened PledgeQueries
  import opened PledgeService
  import opened PledgeInvariant
  import opened DomainProofs
  import opened LedgerProofs
  import opened Sums

  /** The row a counted capture leaves behind. */
  function CapturedRow(p: Pledge, c: Capture): Pledge {
    p.(status := Captured, paymentId := Some(c.paymentId))
  }

  function HeldRow(p: Pledge, c: Capture, reason: RefundReason): Pledge {
    p.(status := RefundPending, paymentId := Some(c.paymentId), reason := Some(reason))
  }

  /** The campaign rows after a counted capture: the amount, and one more backer unless there already. */
  function CountedCampaigns(t: Tables, id: nat, p: Pledge): seq<Campaign>
    requires id < |t.pledges| && p.campaign < |t.campaigns|
  {
    var camp := t.campaigns[p.campaign];
    var more := if PriorPledge(t.pledges, id, p.campaign, p.backer) then 0 else 1;
    t.campaigns[p.campaign := camp.(raised := camp.raised + p.amount, backers := camp.backers + more)]
  }

  function CountedTiers(t: Tables, p: Pledge): seq<Tier>
    requires p.tier.Some? ==> p.tier.value < |t.tiers|
  {
    if p.tier.None? then t.tiers
    else t.tiers[p.tier.value := t.tiers[p.tier.value].(claimed := t.tiers[p.tier.value].claimed + 1)]
  }

  /** Everything a committed counted capture changes. */
  ghost predicate CountedEffect(t: Tables, id: nat, p: Pledge, c: Capture, t': Tables)
    requires id < |t.pledges| && p.campaign < |t.campaigns|
    requires p.tier.Some? ==> p.tier.value < |t.tiers|
  {
    && !PaymentTaken(t.pledges, id, c.paymentId)
    && t'.pledges == t.pledges[id := CapturedRow(p, c)]
    && t'.campaigns == CountedCampaigns(t, id, p)
    && t'.tiers == CountedTiers(t, p)
    && t'.events == t.events
    && t'.outbox == t.outbox + [PledgeCaptured(id, p.campaign, p.backer, p.amount)]
    && Booking(BooksOf(t), id, p.amount, WrappingAdd(c.fee, c.tax), Account(CampaignEscrow, Some(p.campaign)),
               BooksOf(t'))
  }

  ghost predicate HeldEffect(t: Tables, id: nat, p: Pledge, c: Capture, reason: RefundReason, t': Tables)
    requires id < |t.pledges|
  {
    && !PaymentTaken(t.pledges, id, c.paymentId)
    && t'.pledges == t.pledges[id := HeldRow(p, c, reason)]
    && t'.campaigns == t.campaigns
    && t'.tiers == t.tiers
    && t'.events == t.events
    && t'.outbox == t.outbox + [RefundRequired(id, p.campaign, p.backer, c.amount, c.paymentId, reason)]
    && Booking(BooksOf(t), id, c.amount, WrappingAdd(c.fee, c.tax), Account(BackerRefundPayable, Some(p.backer)),
               BooksOf(t'))
  }

  lemma {:induction false} TotalsEffect(t: Tables, id: nat, p: Pledge, c: Capture)
    requires id < |t.pledges| && p == t.pledges[id] && p.campaign < |t.campaigns|
    requires p.tier.Some? ==> p.tier.value < |t.tiers|
    requires CountTotals(t, id, p, c).Ok?
    ensures !PaymentTaken(t.pledges, id, c.paymentId)
    ensures var t' := CountTotals(t, id, p, c).value;
            && t' == t.(pledges := t'.pledges, campaigns := t'.campaigns, tiers := t'.tiers)
            && t'.pledges == t.pledges[id := CapturedRow(p, c)]
            && t'.campaigns == CountedCampaigns(t, id, p)
            && t'.tiers == CountedTiers(t, p)
  {
    SamePriors(t.pledges, id, CapturedRow(p, c), p.campaign, p.backer);
  }

  /** Rewriting the pledge's own row does not change whether another pledge of its backer counts. */
  lemma {:induction false} SamePriors(pledges: seq<Pledge>, id: nat, q: Pledge, campaign: nat, backer: nat)
    requires id < |pledges|
    ensures PriorPledge(pledges[id := q], id, campaign, backer) <==> PriorPledge(pledges, id, campaign, backer)
  {
    var after := pledges[id := q];
    if PriorPledge(pledges, id, campaign, backer) {
      var i :| 0 <= i < |pledges| && i != id && pledges[i].campaign == campaign
               && pledges[i].backer == backer && Counted(pledges[i].status);
      assert after[i] == pledges[i];
    }
    if PriorPledge(after, id, campaign, backer) {
      var i :| 0 <= i < |after| && i != id && after[i].campaign == campaign
               && after[i].backer == backer && Counted(after[i].status);
      assert after[i] == pledges[i];
    }
  }

  /**
   * Because no transaction is on the books for an unbooked pledge, the early return of the ledger is
   * never taken: every counted capture books its rows.
   */
  lemma {:induction false} CountedEffectHolds(t: Tables, id: nat, p: Pledge, c: Capture)
    requires BooksOk(BooksOf(t))
    requires LedgerTxn(PledgeCapture, id) !in t.txns
    requires id < |t.pledges| && p == t.pledges[id] && p.campaign < |t.campaigns|
    requires p.tier.Some? ==> p.tier.value < |t.tiers|
    requires CountCapture(t, id, p, c).Ok?
    ensures CountedEffect(t, id, p, c, CountCapture(t, id, p, c).value)
  {
    TotalsEffect(t, id, p, c);
    var t1 := CountTotals(t, id, p, c).value;
    assert BooksOf(t1) == BooksOf(t);
    var fee, credited := WrappingAdd(c.fee, c.tax), Account(CampaignEscrow, Some(p.campaign));
    BookOne(t1, id, p.amount, fee, credited, PledgeCaptured(id, p.campaign, p.backer, p.amount));
  }

  /** Recording a capture and announcing it touches the books and the outbox only. */
  lemma {:induction false} BookOne(t: Tables, id: nat, amount: int, fee: int, credited: Account, e: OutboxEvent)
    requires BooksOk(BooksOf(t))
    requires LedgerTxn(PledgeCapture, id) !in t.txns
    requires RecordCapture(t, id, amount, fee, credited).Ok?
    ensures var t' := InsertOutbox(RecordCapture(t, id, amount, fee, credited).value, e);
            && t' == t.(accounts := t'.accounts, txns := t'.txns, entries := t'.entries, outbox := t.outbox + [e])
            && Booking(BooksOf(t), id, amount, fee, credited, BooksOf(t'))
  {
    RecordCaptureEffect(t, id, amount, fee, credited);
    var t2 := RecordCapture(t, id, amount, fee, credited).value;
    assert BooksOf(InsertOutbox(t2, e)) == BooksOf(t2);
  }

  lemma {:induction false} HeldEffectHolds(t: Tables, id: nat, p: Pledge, c: Capture, reason: RefundReason)
    requires BooksOk(BooksOf(t))
    requires LedgerTxn(PledgeCapture, id) !in t.txns
    requires id < |t.pledges| && p == t.pledges[id]
    requires HoldForRefund(t, id, p, c, reason).Ok?
    ensures HeldEffect(t, id, p, c, reason, HoldForRefund(t, id, p, c, reason).value)
  {
    var t1 := MarkRefundPending(t, id, c.paymentId, reason).value;
    assert BooksOf(t1) == BooksOf(t);
    var fee, credited := WrappingAdd(c.fee, c.tax), Account(BackerRefundPayable, Some(p.backer));
    BookOne(t1, id, c.amount, fee, credited, RefundRequired(id, p.campaign, p.backer, c.amount, c.paymentId, reason));
  }

  // ---------------------------------------------------------------- counted captures

  lemma {:induction false} CountedKeepsDomain(t: Tables, id: nat, p: Pledge, c: Capture, t': Tables)
    requires DomainInv(t) && id < |t.pledges| && p == t.pledges[id] && !Booked(p.status)
    requires p.tier.Some? ==> !SoldOut(t.tiers[p.tier.value])
    requires CountedEffect(t, id, p, c, t')
    ensures DomainInv(t')
  {
    var q := CapturedRow(p, c);
    SamePriors(t.pledges, id, q, p.campaign, p.backer);
    RaisedAfterCount(t.campaigns, t.pledges, id, q, t'.campaigns[p.campaign]);
    ClaimsAfterCount(t.tiers, t.pledges, id, q);
    KeysAfterPayment(t.pledges, id, q, c.paymentId);
  }

  lemma {:induction false} BookedAfter(t: Tables, id: nat, q: Pledge)
    requires BookedOnce(t.pledges, t.txns) && id < |t.pledges| && Booked(q.status)
    ensures BookedOnce(t.pledges[id := q], t.txns + [LedgerTxn(PledgeCapture, id)])
  {
  }

  /** The event that announces what a capture did to its pledge. */
  ghost predicate Tells(e: OutboxEvent, id: nat, q: Pledge) {
    && e.pledge == id && e.campaign == q.campaign && e.backer == q.backer
    && (e.PledgeCaptured? ==> Counted(q.status) && e.amount == q.amount)
    && (e.RefundRequired? ==> Held(q.status) && Some(e.paymentId) == q.paymentId)
  }

  lemma {:induction false} AnnouncedAfter(pledges: seq<Pledge>, outbox: seq<OutboxEvent>, id: nat, q: Pledge,
                                          e: OutboxEvent)
    requires Announced(pledges, outbox) && id < |pledges| && !Booked(pledges[id].status) && Tells(e, id, q)
    ensures Announced(pledges[id := q], outbox + [e])
  {
    forall i: nat
      ensures Sum(outbox + [e], Announcing(i)) == Sum(outbox, Announcing(i)) + Announcing(i)(e)
      ensures Sum(outbox + [e], Refunding(i)) == Sum(outbox, Refunding(i)) + Refunding(i)(e)
    {
      SumAppend(outbox, e, Announcing(i));
      SumAppend(outbox, e, Refunding(i));
    }
    forall x | x in outbox + [e] ensures x == e || (x in outbox && x.pledge != id) {
      if x in outbox {
        NoEventYet(pledges, outbox, id, x);
      }
    }
  }

  lemma {:induction false} NoEventYet(pledges: seq<Pledge>, outbox: seq<OutboxEvent>, id: nat, x: OutboxEvent)
    requires Announced(pledges, outbox) && id < |pledges| && !Booked(pledges[id].status) && x in outbox
    ensures x.pledge != id
  {
    var i :| 0 <= i < |outbox| && outbox[i] == x;
    SumAtLeast(outbox, i, Announcing(id));
    SumAtLeast(outbox, i, Refunding(id));
  }

  lemma {:induction false} BalancesAfterCount(t: Tables, id: nat, p: Pledge, fee: int, t': Tables,
                                              raised: seq<Campaign>)
    requires EscrowMatches(t.campaigns, t.accounts, t.entries) && p.campaign < |t.campaigns|
    requires RefundsMatch(t.accounts, t.entries, t.outbox) && PlatformMatches(t.accounts, t.entries, t.outbox)
    requires Booking(BooksOf(t), id, p.amount, fee, Account(CampaignEscrow, Some(p.campaign)),
               BooksOf(t'))
    requires |raised| == |t.campaigns|
    requires forall c: nat | c < |raised| ::
               raised[c].raised == t.campaigns[c].raised + if c == p.campaign then p.amount else 0
    requires t'.outbox == t.outbox + [PledgeCaptured(id, p.campaign, p.backer, p.amount)]
    ensures EscrowMatches(raised, t'.accounts, t'.entries)
    ensures RefundsMatch(t'.accounts, t'.entries, t'.outbox) && PlatformMatches(t'.accounts, t'.entries, t'.outbox)
  {
    var e := PledgeCaptured(id, p.campaign, p.backer, p.amount);
    SumAppend(t.outbox, e, Paid());
    forall b: nat ensures Sum(t'.outbox, Owing(b)) == Sum(t.outbox, Owing(b)) {
      SumAppend(t.outbox, e, Owing(b));
    }
  }

  lemma {:induction false} CountedKeepsLedger(t: Tables, id: nat, p: Pledge, c: Capture, t': Tables)
    requires LedgerInv(t) && id < |t.pledges| && p == t.pledges[id] && !Booked(p.status)
    requires p.campaign < |t.campaigns| && (p.tier.Some? ==> p.tier.value < |t.tiers|)
    requires CountedEffect(t, id, p, c, t')
    ensures LedgerInv(t')
  {
    var q := CapturedRow(p, c);
    BookedAfter(t, id, q);
    AnnouncedAfter(t.pledges, t.outbox, id, q, PledgeCaptured(id, p.campaign, p.backer, p.amount));
    BalancesAfterCount(t, id, p, WrappingAdd(c.fee, c.tax), t', t'.campaigns);
  }

  // ---------------------------------------------------------------- held captures

  lemma {:induction false} HeldKeepsDomain(t: Tables, id: nat, p: Pledge, c: Capture, reason: RefundReason, t': Tables)
    requires DomainInv(t) && id < |t.pledges| && p == t.pledges[id] && !Booked(p.status)
    requires HeldEffect(t, id, p, c, reason, t')
    ensures DomainInv(t')
  {
    var q := HeldRow(p, c, reason);
    NeutralUpdate(t.campaigns, t.tiers, t.pledges, id, q);
    KeysAfterPayment(t.pledges, id, q, c.paymentId);
  }

  lemma {:induction false} HeldKeepsLedger(t: Tables, id: nat, p: Pledge, c: Capture, reason: RefundReason, t': Tables)
    requires LedgerInv(t) && id < |t.pledges| && p == t.pledges[id] && !Booked(p.status)
    requires HeldEffect(t, id, p, c, reason, t')
    ensures LedgerInv(t')
  {
    var q := HeldRow(p, c, reason);
    var e := RefundRequired(id, p.campaign, p.backer, c.amount, c.paymentId, reason);
    BookedAfter(t, id, q);
    AnnouncedAfter(t.pledges, t.outbox, id, q, e);
    SumAppend(t.outbox, e, Paid());
    forall b: nat ensures Sum(t'.outbox, Owing(b)) == Sum(t.outbox, Owing(b)) + if b == p.backer then c.amount else 0 {
      SumAppend(t.outbox, e, Owing(b));
    }
  }

  // ---------------------------------------------------------------- any capture

  /** What decides whether an applied capture counts: the amount matches and the tier has room. */
  predicate Counts(t: Tables, p: Pledge, c: Capture) {
    && c.amount == p.amount
    && (p.tier.Some? && p.tier.value < |t.tiers| ==> !SoldOut(t.tiers[p.tier.value]))
  }

  lemma {:induction false} CaptureKeepsInv(t: Tables, id: nat, c: Capture)
    requires Inv(t) && id < |t.pledges|
    requires ApplyCapture(t, id, t.pledges[id], c).Ok?
    ensures Inv(ApplyCapture(t, id, t.pledges[id], c).value)
  {
    var p := t.pledges[id];
    var t' := ApplyCapture(t, id, p, c).value;
    if Booked(p.status) {
    } else if Counts(t, p, c) {
      CountedEffectHolds(t, id, p, c);
      CountedKeepsDomain(t, id, p, c, t');
      CountedKeepsLedger(t, id, p, c, t');
    } else {
      var reason := if c.amount != p.amount then AmountMismatch else SoldOutWhilePaying;
      HeldEffectHolds(t, id, p, c, reason);
      HeldKeepsDomain(t, id, p, c, reason, t');
      HeldKeepsLedger(t, id, p, c, reason, t');
    }
  }
}
