/** Runs from the empty database that reach what the exact conditions elsewhere speak of. */
module PledgeWitness {
  import opened Results
  import opened PledgeModel
  import opened PledgeQueries
  import opened PledgeService
  import opened PledgeInvariant
  import opened CaptureProofs
  import opened PledgeRuns
  import opened PledgeHistory
  import opened PledgeFate
  import opened Sums

  /** One live campaign, with pledges at time 0 by backers 1, 2, ... without a tier. */
  function Opening(deadline: int): seq<Op> {
    [AddCampaign(0), PublishCampaign(0, true, Some(deadline))]
  }

  function Input(backer: nat, amount: Int64): CreateInput {
    CreateInput(0, backer, None, amount)
  }

  function Row(backer: nat, amount: Int64, order: string): Pledge {
    Pledge(0, backer, None, amount, Created, order, None, None)
  }

  function Placing(id: nat, amount: Int64, order: string): seq<Op> {
    [CreatePledge(Input(id + 1, amount), 0, false), Attach(id, order)]
  }

  lemma {:induction false} RunTwo(t: Tables, a: Op, b: Op)
    ensures Run(t, [a, b]) == Step(Step(t, a), b)
  {
    RunLast(t, [a], b);
    RunOne(t, a);
    assert [a] + [b] == [a, b];
  }

  lemma {:induction false} Opened(deadline: int)
    ensures Run(EMPTY, Opening(deadline)) == EMPTY.(campaigns := [Campaign(0, true, Some(deadline), 0, 0)])
  {
    RunTwo(EMPTY, AddCampaign(0), PublishCampaign(0, true, Some(deadline)));
  }

  /** Money-free tables with that campaign and these pledges. */
  function Waiting(deadline: int, pledges: seq<Pledge>): Tables {
    EMPTY.(campaigns := [Campaign(0, true, Some(deadline), 0, 0)], pledges := pledges)
  }

  lemma {:induction false} Placed(deadline: int, pledges: seq<Pledge>, amount: Int64, order: string)
    requires deadline >= 60 && amount > 0 && order != ""
    requires forall i | 0 <= i < |pledges| :: pledges[i].orderId != "" && pledges[i].orderId != order
    ensures Run(Waiting(deadline, pledges), Placing(|pledges|, amount, order))
            == Waiting(deadline, pledges + [Row(|pledges| + 1, amount, order)])
  {
    var t, n := Waiting(deadline, pledges), |pledges|;
    var create := CreatePledge(Input(n + 1, amount), 0, false);
    CreateChecked(t, Input(n + 1, amount), 0);
    var t1 := Step(t, create);
    assert t1 == Waiting(deadline, pledges + [NewPledge(Input(n + 1, amount))]);
    RunTwo(t, create, Attach(n, order));
    assert t1.pledges[n := t1.pledges[n].(orderId := order)] == pledges + [Row(n + 1, amount, order)];
  }

  function OnePledge(deadline: int, amount: Int64, order: string): seq<Op> {
    Opening(deadline) + Placing(0, amount, order)
  }

  function TwoPledges(deadline: int, amount: Int64, order: string, amount': Int64, order': string): seq<Op> {
    OnePledge(deadline, amount, order) + Placing(1, amount', order')
  }

  lemma {:induction false} OneWaits(deadline: int, amount: Int64, order: string)
    requires deadline >= 60 && amount > 0 && order != ""
    ensures Run(EMPTY, OnePledge(deadline, amount, order)) == Waiting(deadline, [Row(1, amount, order)])
  {
    Opened(deadline);
    RunAfter(EMPTY, Opening(deadline), Placing(0, amount, order));
    Placed(deadline, [], amount, order);
    assert [] + [Row(1, amount, order)] == [Row(1, amount, order)];
  }

  lemma {:induction false} OneIsReachable(deadline: int, amount: Int64, order: string)
    requires deadline >= 60 && amount > 0 && order != ""
    ensures Inv(Waiting(deadline, [Row(1, amount, order)]))
  {
    OneWaits(deadline, amount, order);
    ReachedInv(OnePledge(deadline, amount, order));
  }

  lemma {:induction false} ReachedInv(ops: seq<Op>)
    ensures Inv(Run(EMPTY, ops))
  {
    EmptySatisfiesInv();
    RunKeepsInv(EMPTY, ops);
  }

  lemma {:induction false} TwoWait(deadline: int, amount: Int64, order: string, amount': Int64, order': string)
    requires deadline >= 60 && amount > 0 && amount' > 0 && order != "" && order' != "" && order != order'
    ensures Run(EMPTY, TwoPledges(deadline, amount, order, amount', order'))
            == Waiting(deadline, [Row(1, amount, order), Row(2, amount', order')])
  {
    OneWaits(deadline, amount, order);
    RunAfter(EMPTY, OnePledge(deadline, amount, order), Placing(1, amount', order'));
    Placed(deadline, [Row(1, amount, order)], amount', order');
    assert [Row(1, amount, order)] + [Row(2, amount', order')] == [Row(1, amount, order), Row(2, amount', order')];
  }

  /** A capture to be held is refused when it is not positive. */
  lemma {:induction false} NegativeHeldIsRefused(deadline: int, amount: Int64, order: string, c: Capture)
    requires deadline >= 60 && amount > 0 && order != "" && c.amount <= 0
    ensures var t := Run(EMPTY, OnePledge(deadline, amount, order));
            |t.pledges| == 1 && ApplyCapture(t, 0, t.pledges[0], c).Err?
  {
    OneWaits(deadline, amount, order);
    OneIsReachable(deadline, amount, order);
    CaptureRefusedExactly(Waiting(deadline, [Row(1, amount, order)]), 0, c);
  }

  function Paying(id: string, order: string, c: Capture): Op {
    DeliverWebhook(Webhook(id, PaymentCaptured, order, NoNote, c), false)
  }

  function Failing(id: string, order: string): Op {
    DeliverWebhook(Webhook(id, PaymentFailed, order, NoNote, Capture("", 0, 0, 0)), false)
  }

  /** A webhook with a new id about an attached order arrives, at that order's pledge. */
  lemma {:induction false} ArrivesAt(t: Tables, e: Webhook, id: nat)
    requires KeysUnique(t.pledges) && id < |t.pledges| && e.orderId == t.pledges[id].orderId != ""
    requires e.id != "" && !EventRecorded(t.events, e.id) && e.note == NoNote
    ensures Arrives(t, e, false) && Resolve(t, e) == Ok(id)
  {
  }

  lemma {:induction false} AttemptFails(t: Tables, id: nat, eventId: string)
    requires Inv(t) && id < |t.pledges| && t.pledges[id].orderId != "" && t.pledges[id].status == Created
    requires eventId != "" && t.events == []
    ensures var t' := Step(t, Failing(eventId, t.pledges[id].orderId));
            && t'.pledges == t.pledges[id := t.pledges[id].(status := Failed)]
            && t' == t.(pledges := t'.pledges, events := t'.events)
            && (forall i | 0 <= i < |t'.events| :: t'.events[i].id == eventId)
  {
    var e := Webhook(eventId, PaymentFailed, t.pledges[id].orderId, NoNote, Capture("", 0, 0, 0));
    ArrivesAt(t, e, id);
    ResolveIgnoresEvents(t, e, t.events + [PaymentEvent(e.id, e.kind, None)]);
  }

  /**
   * The exception to the transition table happens: a pledge whose attempt failed is paid with another
   * amount, and goes from FAILED to REFUND_PENDING in one step.
   */
  lemma {:induction false} FailedIsHeld(deadline: int, amount: Int64, order: string, failed: string, paid: string,
                                        c: Capture)
    requires deadline >= 60 && amount > 0 && order != "" && c.amount > 0 && c.amount != amount
    requires failed != "" && paid != "" && failed != paid
    ensures var t := Run(EMPTY, OnePledge(deadline, amount, order) + [Failing(failed, order)]);
            var op := Paying(paid, order, c);
            && Inv(t) && |t.pledges| == 1
            && t.pledges[0].status == Failed && HoldsAtOnce(t, op, 0)
            && |Step(t, op).pledges| == 1 && Step(t, op).pledges[0].status == RefundPending
            && !CanTransitionTo(Failed, RefundPending)
  {
    var t0 := Waiting(deadline, [Row(1, amount, order)]);
    var ops := OnePledge(deadline, amount, order);
    OneWaits(deadline, amount, order);
    OneIsReachable(deadline, amount, order);
    RunLast(EMPTY, ops, Failing(failed, order));
    AttemptFails(t0, 0, failed);
    ReachedInv(ops + [Failing(failed, order)]);
    HeldFromFailed(Run(EMPTY, ops + [Failing(failed, order)]), paid, c);
  }

  lemma {:induction false} HeldFromFailed(t: Tables, paid: string, c: Capture)
    requires Inv(t) && |t.pledges| == 1 && t.pledges[0].status == Failed && t.pledges[0].orderId != ""
    requires c.amount > 0 && c.amount != t.pledges[0].amount && paid != "" && !EventRecorded(t.events, paid)
    ensures var op := Paying(paid, t.pledges[0].orderId, c);
            && HoldsAtOnce(t, op, 0) && |Step(t, op).pledges| == 1 && Step(t, op).pledges[0].status == RefundPending
  {
    var e := Webhook(paid, PaymentCaptured, t.pledges[0].orderId, NoNote, c);
    ArrivesAt(t, e, 0);
    WebhookOutcome(t, e);
  }

  // ---------------------------------------------------------------- refused captures

  /** Of two waiting pledges the first is paid. */
  lemma {:induction false} FirstIsPaid(deadline: int, p: Pledge, q: Pledge, eventId: string, c: Capture)
    requires Inv(Waiting(deadline, [p, q])) && p.status == Created && p.tier.None? && p.orderId != "" && q.paymentId.None?
    requires eventId != "" && c.amount == p.amount
    ensures Step(Waiting(deadline, [p, q]), Paying(eventId, p.orderId, c)).pledges == [CapturedRow(p, c), q]
  {
    var t := Waiting(deadline, [p, q]);
    var e := Webhook(eventId, PaymentCaptured, p.orderId, NoNote, c);
    assert Recordable(t, 0, c) && Counts(t, t.pledges[0], c) by { FirstIsRecordable(deadline, t, c); }
    assert Arrives(t, e, false) && Resolve(t, e) == Ok(0) by { ArrivesAt(t, e, 0); }
    WebhookCounts(t, e, 0);
    StepDelivers(t, e, false);
    assert [p, q][0 := CapturedRow(p, c)] == [CapturedRow(p, c), q];
  }

  lemma {:induction false} FirstIsRecordable(deadline: int, t: Tables, c: Capture)
    requires PledgeRefs(t.campaigns, t.tiers, t.pledges) && |t.pledges| == 2
    requires t.pledges[0].tier.None? && t.pledges[1].paymentId.None? && c.amount == t.pledges[0].amount
    requires t.campaigns == [Campaign(0, true, Some(deadline), 0, 0)] && t.pledges[0].amount <= MAX_BIGINT
    ensures Recordable(t, 0, c) && Counts(t, t.pledges[0], c)
  {
  }

  lemma {:induction false} FirstPaid(deadline: int, amount: Int64, order: string, amount': Int64, order': string,
                                     eventId: string, c: Capture)
    requires deadline >= 60 && amount > 0 && amount' > 0 && order != "" && order' != "" && order != order'
    requires eventId != "" && c.amount == amount
    ensures var t := Run(EMPTY, TwoPledges(deadline, amount, order, amount', order') + [Paying(eventId, order, c)]);
            Inv(t) && t.pledges == [CapturedRow(Row(1, amount, order), c), Row(2, amount', order')]
  {
    var ops := TwoPledges(deadline, amount, order, amount', order');
    TwoWait(deadline, amount, order, amount', order');
    ReachedInv(ops);
    RunLast(EMPTY, ops, Paying(eventId, order, c));
    FirstIsPaid(deadline, Row(1, amount, order), Row(2, amount', order'), eventId, c);
    StepKeepsInv(Run(EMPTY, ops), Paying(eventId, order, c));
  }

  /** A payment already on one pledge is refused for another. */
  lemma {:induction false} TakenPaymentIsRefused(deadline: int, amount: Int64, order: string, amount': Int64,
                                                 order': string, eventId: string,
                              c: Capture, c': Capture)
    requires deadline >= 60 && amount > 0 && amount' > 0 && order != "" && order' != "" && order != order'
    requires eventId != "" && c.amount == amount && c'.paymentId == c.paymentId
    ensures var t := Run(EMPTY, TwoPledges(deadline, amount, order, amount', order') + [Paying(eventId, order, c)]);
            |t.pledges| == 2 && ApplyCapture(t, 1, t.pledges[1], c').Err?
  {
    var t := Run(EMPTY, TwoPledges(deadline, amount, order, amount', order') + [Paying(eventId, order, c)]);
    FirstPaid(deadline, amount, order, amount', order', eventId, c);
    assert t.pledges[0].paymentId == Some(c'.paymentId);
    CaptureRefusedExactly(t, 1, c');
  }

  /** A capture that would take its campaign's total out of range is refused. */
  lemma {:induction false} OverflowIsRefused(deadline: int, amount: Int64, order: string, amount': Int64,
                                             order': string, eventId: string,
                          c: Capture, c': Capture)
    requires deadline >= 60 && amount > 0 && amount' > 0 && order != "" && order' != "" && order != order'
    requires eventId != "" && c.amount == amount && c'.amount == amount' && amount + amount' > MAX_BIGINT
    ensures var t := Run(EMPTY, TwoPledges(deadline, amount, order, amount', order') + [Paying(eventId, order, c)]);
            |t.pledges| == 2 && ApplyCapture(t, 1, t.pledges[1], c').Err?
  {
    var t := Run(EMPTY, TwoPledges(deadline, amount, order, amount', order') + [Paying(eventId, order, c)]);
    FirstPaid(deadline, amount, order, amount', order', eventId, c);
    SecondOverflows(t, c');
  }

  lemma {:induction false} SecondOverflows(t: Tables, c: Capture)
    requires Inv(t) && |t.pledges| == 2 && t.pledges[0].status == Captured && t.pledges[1].status == Created
    requires t.pledges[0].campaign == t.pledges[1].campaign && t.pledges[1].tier.None?
    requires c.amount == t.pledges[1].amount && t.pledges[0].amount + t.pledges[1].amount > MAX_BIGINT
    ensures ApplyCapture(t, 1, t.pledges[1], c).Err?
  {
    var p, q := t.pledges[0], t.pledges[1];
    assert t.campaigns[q.campaign].raised == p.amount by {
      RaisedByTwo(p, q, q.campaign);
      assert t.pledges == [p, q];
    }
    assert TotalsOverflow(t, 1, q);
    CaptureRefusedExactly(t, 1, c);
  }

  lemma {:induction false} RaisedByTwo(p: Pledge, q: Pledge, campaign: nat)
    ensures Sum([p, q], Raising(campaign)) == Raising(campaign)(p) + Raising(campaign)(q)
  {
    SumAppend([p], q, Raising(campaign));
    SumAppend([], p, Raising(campaign));
    assert [] + [p] == [p] && [p] + [q] == [p, q];
  }
}
