/**
 * Whole histories of one pledge: the first applied capture decides its fate for good, each provider
 * event commits at most once, and the order and multiplicity of its deliveries do not matter.
 */
module PledgeHistory {
  import opened Results
  import opened PledgeModel
  import opened PledgeQueries
  import opened PledgeService
  import opened PledgeInvariant
  import opened CaptureProofs
  import opened PledgeRuns

  // ---------------------------------------------------------------- runs one after the other

  lemma {:induction false} RunAfter(t: Tables, ops: seq<Op>, more: seq<Op>)
    ensures Run(t, ops + more) == Run(Run(t, ops), more)
    decreases |ops|
  {
    if ops == [] {
      assert ops + more == more;
    } else {
      assert (ops + more)[1..] == ops[1..] + more;
      RunAfter(Step(t, ops[0]), ops[1..], more);
    }
  }

  lemma {:induction false} RunLast(t: Tables, ops: seq<Op>, op: Op)
    ensures Run(t, ops + [op]) == Step(Run(t, ops), op)
  {
    RunAfter(t, ops, [op]);
    RunOne(Run(t, ops), op);
  }

  lemma {:induction false} RunOne(t: Tables, op: Op)
    ensures Run(t, [op]) == Step(t, op)
  {
    assert [op][1..] == [];
  }

  // ---------------------------------------------------------------- the first capture decides

  /** What a committed capture does to the pledge rows. */
  lemma {:induction false} CaptureRow(t: Tables, id: nat, c: Capture)
    requires id < |t.pledges| && ApplyCapture(t, id, t.pledges[id], c).Ok?
    ensures var p := t.pledges[id];
            ApplyCapture(t, id, p, c).value.pledges ==
            if Booked(p.status) then t.pledges
            else if Counts(t, p, c) then t.pledges[id := CapturedRow(p, c)]
            else t.pledges[id := HeldRow(p, c, if c.amount != p.amount then AmountMismatch else SoldOutWhilePaying)]
  {
  }

  /** The fields of a booked pledge that nothing may change; its order id is not among them. */
  predicate SameFate(p: Pledge, q: Pledge) {
    q == p.(orderId := q.orderId)
  }

  lemma {:induction false} CaptureKeepsFate(t: Tables, id: nat, c: Capture, other: nat)
    requires id < |t.pledges| && ApplyCapture(t, id, t.pledges[id], c).Ok?
    requires other < |t.pledges| && Booked(t.pledges[other].status)
    ensures var t' := ApplyCapture(t, id, t.pledges[id], c).value;
            |t'.pledges| == |t.pledges| && t'.pledges[other] == t.pledges[other]
  {
    CaptureRow(t, id, c);
  }

  lemma {:induction false} StepKeepsFate(t: Tables, op: Op, id: nat)
    requires id < |t.pledges| && Booked(t.pledges[id].status)
    ensures id < |Step(t, op).pledges| && SameFate(t.pledges[id], Step(t, op).pledges[id])
  {
    match op
    case DeliverWebhook(e, _) =>
      var t1 := InsertEvent(t, PaymentEvent(e.id, e.kind, NotedPledge(e.note)));
      if t1.Ok? && e.kind.PaymentCaptured? && WebhookBody(t, e).Ok? {
        CaptureKeepsFate(t1.value, Resolve(t1.value, e).value, e.capture, id);
      }
    case ConfirmPayment(x, _, payments, _) =>
      if payments.Some? {
        var paid := FindCapture(payments.value, x.paymentId);
        if paid.Some? && ConfirmBody(t, x, paid).Ok? {
          CaptureKeepsFate(t, x.pledge, paid.value, id);
        }
      }
    case _ =>
  }

  /** Once a capture is applied, nothing in these paths changes the pledge's status, payment or amount. */
  lemma {:induction false} BookedIsFinal(t: Tables, ops: seq<Op>, id: nat)
    requires id < |t.pledges| && Booked(t.pledges[id].status)
    ensures id < |Run(t, ops).pledges| && SameFate(t.pledges[id], Run(t, ops).pledges[id])
    decreases |ops|
  {
    if ops != [] {
      StepKeepsFate(t, ops[0], id);
      BookedIsFinal(Step(t, ops[0]), ops[1..], id);
    }
  }

  // ---------------------------------------------------------------- each event commits at most once

  /** How many deliveries of the event with this id commit during the run. */
  function Commits(t: Tables, ops: seq<Op>, eventId: string): nat
    decreases |ops|
  {
    if ops == [] then 0
    else
      (if ops[0].DeliverWebhook? && ops[0].event.id == eventId && Deliver(t, ops[0].event, ops[0].fault).error.None?
       then 1 else 0)
      + Commits(Step(t, ops[0]), ops[1..], eventId)
  }

  lemma {:induction false} CaptureKeepsEvents(t: Tables, id: nat, p: Pledge, c: Capture)
    requires ApplyCapture(t, id, p, c).Ok?
    ensures ApplyCapture(t, id, p, c).value.events == t.events
  {
  }

  /** A step adds the event it commits to the record, and nothing else. */
  lemma {:induction false} StepEvents(t: Tables, op: Op)
    ensures Step(t, op).events ==
            if op.DeliverWebhook? && Deliver(t, op.event, op.fault).error.None?
            then t.events + [PaymentEvent(op.event.id, op.event.kind, NotedPledge(op.event.note))]
            else t.events
  {
    match op
    case DeliverWebhook(e, _) =>
      var t1 := InsertEvent(t, PaymentEvent(e.id, e.kind, NotedPledge(e.note)));
      if t1.Ok? && e.kind.PaymentCaptured? && WebhookBody(t, e).Ok? {
        var id := Resolve(t1.value, e).value;
        CaptureKeepsEvents(t1.value, id, t1.value.pledges[id], e.capture);
      }
    case ConfirmPayment(x, _, payments, _) =>
      if payments.Some? {
        var paid := FindCapture(payments.value, x.paymentId);
        if paid.Some? && ConfirmBody(t, x, paid).Ok? {
          CaptureKeepsEvents(t, x.pledge, t.pledges[x.pledge], paid.value);
        }
      }
    case _ =>
  }

  /** Over any run an event commits once if it ends up newly recorded and never otherwise. */
  lemma {:induction false} EventCommitsAtMostOnce(t: Tables, ops: seq<Op>, eventId: string)
    ensures EventRecorded(t.events, eventId) ==> EventRecorded(Run(t, ops).events, eventId)
    ensures Commits(t, ops, eventId)
            == if !EventRecorded(t.events, eventId) && EventRecorded(Run(t, ops).events, eventId) then 1 else 0
    decreases |ops|
  {
    if ops != [] {
      var t1 := Step(t, ops[0]);
      StepEvents(t, ops[0]);
      if |t1.events| > |t.events| {
        assert t1.events[|t.events|].id == ops[0].event.id;
      }
      forall i: nat | i < |t.events| ensures t1.events[i] == t.events[i] {
      }
      EventCommitsAtMostOnce(t1, ops[1..], eventId);
    }
  }

  // ---------------------------------------------------------------- confluence

  /** The capture a delivery carries, if it carries one at all. */
  function Carried(op: Op): Option<Capture> {
    if op.DeliverWebhook? && op.event.kind.PaymentCaptured? && !op.fault then Some(op.event.capture)
    else if op.ConfirmPayment? && op.signed && op.payments.Some? && !op.fault then
      FindCapture(op.payments.value, op.confirm.paymentId)
    else None
  }

  /**
   * A delivery about pledge `id`: a captured or failed webhook for its order, or its backer's confirm.
   * What it carries is the pledged amount, paid by a payment no other pledge has.
   */
  predicate ForPledge(t: Tables, id: nat, op: Op)
    requires id < |t.pledges|
  {
    var p := t.pledges[id];
    && (op.DeliverWebhook? || op.ConfirmPayment?)
    && (op.DeliverWebhook? ==>
          && op.event.id != "" && !op.event.kind.OtherEvent? && op.event.orderId == p.orderId
          && (op.event.note.NoteId? ==> op.event.note.id < |t.pledges|))
    && (op.ConfirmPayment? ==>
          op.confirm.pledge == id && op.confirm.caller == p.backer && op.confirm.orderId == p.orderId)
    && (Carried(op).Some? ==>
          Carried(op).value.amount == p.amount && !PaymentTaken(t.pledges, id, Carried(op).value.paymentId))
  }

  /** The pledge has no capture yet, its order is attached, its tier has room and the columns have range. */
  predicate Ready(t: Tables, id: nat) {
    && id < |t.pledges|
    && var p := t.pledges[id];
    && p.orderId != "" && p.status in {Created, Authorized, Failed}
    && p.campaign < |t.campaigns|
    && (p.tier.Some? ==> p.tier.value < |t.tiers| && !SoldOut(t.tiers[p.tier.value]))
    && !TotalsOverflow(t, id, p)
  }

  /** The delivery takes effect now: it carries a capture and its event is not on record. */
  predicate Pays(t: Tables, op: Op) {
    Carried(op).Some? && (op.DeliverWebhook? ==> !EventRecorded(t.events, op.event.id))
  }

  /** Different events have different ids. */
  predicate HonestIds(ops: seq<Op>) {
    forall i, j | 0 <= i < |ops| && 0 <= j < |ops| && ops[i].DeliverWebhook? && ops[j].DeliverWebhook? ::
      ops[i].event.id == ops[j].event.id ==> ops[i].event == ops[j].event
  }

  /** The order id leads back to the pledge. */
  lemma {:induction false} OrderResolves(t: Tables, id: nat, e: Webhook)
    requires KeysUnique(t.pledges) && id < |t.pledges|
    requires e.orderId == t.pledges[id].orderId != ""
    ensures Resolve(t, e) == Ok(id)
  {
  }

  /** Everything but the events, the payment id and the ledger, once the pledge has been counted. */
  ghost predicate CountedOnce(t: Tables, id: nat, t': Tables)
    requires id < |t.pledges| && t.pledges[id].campaign < |t.campaigns|
    requires t.pledges[id].tier.Some? ==> t.pledges[id].tier.value < |t.tiers|
  {
    var p := t.pledges[id];
    && |t'.pledges| == |t.pledges|
    && t'.pledges[id].paymentId.Some?
    && t'.pledges == t.pledges[id := p.(status := Captured, paymentId := t'.pledges[id].paymentId)]
    && t'.campaigns == CountedCampaigns(t, id, p)
    && t'.tiers == CountedTiers(t, p)
    && t'.outbox == t.outbox + [PledgeCaptured(id, p.campaign, p.backer, p.amount)]
  }

  /** A delivery that carries nothing, or a repeated one: at most a failure is noted. */
  ghost predicate Quiet(t: Tables, id: nat, t': Tables)
    requires id < |t.pledges|
  {
    && (t'.pledges == t.pledges || t'.pledges == t.pledges[id := t.pledges[id].(status := Failed)])
    && t' == t.(pledges := t'.pledges, events := t'.events)
  }

  lemma {:induction false} QuietStep(t: Tables, id: nat, op: Op)
    requires KeysUnique(t.pledges) && Ready(t, id) && ForPledge(t, id, op) && !Pays(t, op)
    ensures Quiet(t, id, Step(t, op))
  {
    if op.DeliverWebhook? {
      var e := op.event;
      var r := InsertEvent(t, PaymentEvent(e.id, e.kind, NotedPledge(e.note)));
      if r.Ok? {
        OrderResolves(r.value, id, e);
      }
    }
  }

  lemma {:induction false} QuietKeepsReady(t: Tables, id: nat, t': Tables, op: Op)
    requires Ready(t, id) && Quiet(t, id, t') && ForPledge(t, id, op)
    ensures Ready(t', id) && ForPledge(t', id, op)
  {
    var p := t.pledges[id];
    var q := t'.pledges[id];
    if t'.pledges != t.pledges {
      SamePriors(t.pledges, id, q, p.campaign, p.backer);
      if Carried(op).Some? {
        SamePayments(t.pledges, id, q, Carried(op).value.paymentId);
      }
    }
  }

  lemma {:induction false} SamePayments(pledges: seq<Pledge>, id: nat, q: Pledge, paymentId: string)
    requires id < |pledges|
    ensures PaymentTaken(pledges[id := q], id, paymentId) <==> PaymentTaken(pledges, id, paymentId)
  {
    var after := pledges[id := q];
    if PaymentTaken(pledges, id, paymentId) {
      var i :| 0 <= i < |pledges| && i != id && pledges[i].paymentId == Some(paymentId);
      assert after[i] == pledges[i];
    }
    if PaymentTaken(after, id, paymentId) {
      var i :| 0 <= i < |after| && i != id && after[i].paymentId == Some(paymentId);
      assert after[i] == pledges[i];
    }
  }

  /** A matching capture of a ready pledge is accepted, and counts. */
  lemma {:induction false} CaptureCounts(t: Tables, id: nat, c: Capture)
    requires Inv(t) && Ready(t, id)
    requires c.amount == t.pledges[id].amount && !PaymentTaken(t.pledges, id, c.paymentId)
    ensures ApplyCapture(t, id, t.pledges[id], c).Ok?
    ensures var t' := ApplyCapture(t, id, t.pledges[id], c).value;
            CountedOnce(t, id, t') && AllBalanced(t'.txns, t'.entries)
  {
    var p := t.pledges[id];
    assert LedgerTxn(PledgeCapture, id) !in t.txns;
    CaptureRefusedExactly(t, id, c);
    CountedEffectHolds(t, id, p, c);
    CaptureKeepsInv(t, id, c);
  }

  lemma {:induction false} WebhookCaptures(t: Tables, id: nat, e: Webhook)
    requires KeysUnique(t.pledges) && id < |t.pledges| && e.orderId == t.pledges[id].orderId != ""
    requires e.kind.PaymentCaptured? && !EventRecorded(t.events, e.id)
    requires e.note.NoteId? ==> e.note.id < |t.pledges|
    ensures var t1 := t.(events := t.events + [PaymentEvent(e.id, e.kind, NotedPledge(e.note))]);
            WebhookBody(t, e) == ApplyCapture(t1, id, t1.pledges[id], e.capture)
  {
    OrderResolves(t.(events := t.events + [PaymentEvent(e.id, e.kind, NotedPledge(e.note))]), id, e);
  }

  lemma {:induction false} CommitsWhenBalanced(t: Tables, r: Result<Tables>)
    requires r.Ok? && AllBalanced(r.value.txns, r.value.entries)
    ensures Do(t, r, false) == Outcome(r.value, None)
  {
  }

  /** Recording an event touches none of the rows a capture reads. */
  lemma {:induction false} RecordedEventIsNeutral(t: Tables, row: PaymentEvent, id: nat, t': Tables)
    requires Ready(t, id)
    ensures Ready(t.(events := t.events + [row]), id)
    ensures CountedOnce(t.(events := t.events + [row]), id, t') ==> CountedOnce(t, id, t')
  {
  }

  lemma {:induction false} DeliverCommits(t: Tables, e: Webhook, t': Tables)
    requires e.id != "" && WebhookBody(t, e) == Ok(t') && AllBalanced(t'.txns, t'.entries)
    ensures Deliver(t, e, false).tables == t'
  {
  }

  lemma {:induction false} PayingWebhook(t: Tables, id: nat, e: Webhook)
    requires Inv(t) && Ready(t, id) && ForPledge(t, id, DeliverWebhook(e, false))
    requires e.kind.PaymentCaptured? && !EventRecorded(t.events, e.id)
    ensures CountedOnce(t, id, Deliver(t, e, false).tables)
  {
    var row := PaymentEvent(e.id, e.kind, NotedPledge(e.note));
    var t1 := t.(events := t.events + [row]);
    var r := WebhookBody(t, e);
    assert r == ApplyCapture(t1, id, t1.pledges[id], e.capture) by { WebhookCaptures(t, id, e); }
    assert r.Ok? && CountedOnce(t1, id, r.value) && AllBalanced(r.value.txns, r.value.entries) by {
      RecordedEventKeepsInv(t, row);
      RecordedEventIsNeutral(t, row, id, t1);
      CaptureCounts(t1, id, e.capture);
    }
    RecordedEventIsNeutral(t, row, id, r.value);
    DeliverCommits(t, e, r.value);
  }

  lemma {:induction false} PayingStep(t: Tables, id: nat, op: Op)
    requires Inv(t) && Ready(t, id) && ForPledge(t, id, op) && Pays(t, op)
    ensures CountedOnce(t, id, Step(t, op))
  {
    if op.DeliverWebhook? {
      PayingDelivery(t, id, op);
    } else {
      PayingConfirm(t, id, op);
    }
  }

  lemma {:induction false} PayingDelivery(t: Tables, id: nat, op: Op)
    requires Inv(t) && Ready(t, id) && ForPledge(t, id, op) && Pays(t, op) && op.DeliverWebhook?
    ensures CountedOnce(t, id, Step(t, op))
  {
    assert op == DeliverWebhook(op.event, false);
    PayingWebhook(t, id, op.event);
    StepDelivers(t, op.event, false);
  }

  lemma {:induction false} StepDelivers(t: Tables, e: Webhook, fault: bool)
    ensures Step(t, DeliverWebhook(e, fault)) == Deliver(t, e, fault).tables
  {
  }

  lemma {:induction false} PayingConfirm(t: Tables, id: nat, op: Op)
    requires Inv(t) && Ready(t, id) && ForPledge(t, id, op) && Pays(t, op) && op.ConfirmPayment?
    ensures CountedOnce(t, id, Step(t, op))
  {
    var r := ConfirmBody(t, op.confirm, Carried(op));
    assert r == ApplyCapture(t, id, t.pledges[id], Carried(op).value);
    assert r.Ok? && CountedOnce(t, id, r.value) && AllBalanced(r.value.txns, r.value.entries) by {
      CaptureCounts(t, id, Carried(op).value);
    }
    CommitsWhenBalanced(t, r);
  }

  lemma {:induction false} RecordedEventKeepsInv(t: Tables, e: PaymentEvent)
    requires Inv(t) && !EventRecorded(t.events, e.id)
    ensures Inv(t.(events := t.events + [e]))
  {
  }

  lemma {:induction false} SettledStep(t: Tables, id: nat, op: Op)
    requires KeysUnique(t.pledges) && id < |t.pledges| && t.pledges[id].status == Captured && t.pledges[id].orderId != ""
    requires ForPledge(t, id, op)
    ensures Step(t, op) == t.(events := Step(t, op).events)
  {
    if op.DeliverWebhook? {
      var e := op.event;
      var r := InsertEvent(t, PaymentEvent(e.id, e.kind, NotedPledge(e.note)));
      if r.Ok? {
        OrderResolves(r.value, id, e);
      }
    }
  }

  lemma {:induction false} SettledRun(t: Tables, id: nat, ops: seq<Op>)
    requires KeysUnique(t.pledges) && id < |t.pledges| && t.pledges[id].status == Captured && t.pledges[id].orderId != ""
    requires forall op | op in ops :: ForPledge(t, id, op)
    ensures Run(t, ops) == t.(events := Run(t, ops).events)
    decreases |ops|
  {
    if ops != [] {
      var t1 := Step(t, ops[0]);
      SettledStep(t, id, ops[0]);
      forall op | op in ops[1..] ensures ForPledge(t1, id, op) {
        assert ForPledge(t, id, op) && t1.pledges == t.pledges && t1.tiers == t.tiers;
      }
      SettledRun(t1, id, ops[1..]);
    }
  }

  /** After the counted capture the later deliveries are still deliveries about the same pledge. */
  lemma {:induction false} CountedKeepsForPledge(t: Tables, id: nat, t': Tables, op: Op)
    requires Ready(t, id) && CountedOnce(t, id, t') && ForPledge(t, id, op)
    ensures ForPledge(t', id, op)
  {
    if Carried(op).Some? {
      SamePayments(t.pledges, id, t'.pledges[id], Carried(op).value.paymentId);
    }
  }

  lemma {:induction false} FirstPays(t: Tables, id: nat, ops: seq<Op>)
    requires Inv(t) && Ready(t, id)
    requires forall op | op in ops :: ForPledge(t, id, op)
    requires |ops| > 0 && Pays(t, ops[0])
    ensures CountedOnce(t, id, Run(t, ops))
  {
    var t1 := Step(t, ops[0]);
    StepKeepsInv(t, ops[0]);
    PayingStep(t, id, ops[0]);
    forall op | op in ops[1..] ensures ForPledge(t1, id, op) {
      CountedKeepsForPledge(t, id, t1, op);
    }
    SettledRun(t1, id, ops[1..]);
  }

  lemma {:induction false} FirstIsQuiet(t: Tables, id: nat, ops: seq<Op>)
    requires Inv(t) && Ready(t, id)
    requires forall op | op in ops :: ForPledge(t, id, op)
    requires |ops| > 0 && !Pays(t, ops[0])
    ensures var t1 := Step(t, ops[0]);
            Inv(t1) && Ready(t1, id) && Quiet(t, id, t1) && forall op | op in ops :: ForPledge(t1, id, op)
  {
    StepKeepsInv(t, ops[0]);
    QuietStep(t, id, ops[0]);
    forall op | op in ops ensures ForPledge(Step(t, ops[0]), id, op) {
      QuietKeepsReady(t, id, Step(t, ops[0]), op);
    }
    QuietKeepsReady(t, id, Step(t, ops[0]), ops[0]);
  }

  /**
   * Any list of deliveries about a ready pledge, in any order and with any repeats, failures and faults,
   * of which at least one pays: the pledge ends CAPTURED with its amount counted once.
   */
  lemma {:induction false} Confluence(t: Tables, id: nat, ops: seq<Op>, k: nat)
    requires Inv(t) && Ready(t, id) && HonestIds(ops)
    requires forall op | op in ops :: ForPledge(t, id, op)
    requires k < |ops| && Pays(t, ops[k])
    ensures CountedOnce(t, id, Run(t, ops))
    decreases |ops|
  {
    if Pays(t, ops[0]) {
      FirstPays(t, id, ops);
    } else {
      FirstIsQuiet(t, id, ops);
      FaultyRepeat(t, ops, k);
      var t1 := Step(t, ops[0]);
      Confluence(t1, id, ops[1..], k - 1);
      CountedFromQuiet(t, id, t1, Run(t1, ops[1..]));
    }
  }

  /** The paying delivery survives a quiet first step: a faulted copy of it commits nothing. */
  lemma {:induction false} FaultyRepeat(t: Tables, ops: seq<Op>, k: nat)
    requires 0 < k < |ops| && HonestIds(ops) && Pays(t, ops[k]) && !Pays(t, ops[0])
    ensures Pays(Step(t, ops[0]), ops[k])
  {
    StepEvents(t, ops[0]);
  }

  lemma {:induction false} CountedFromQuiet(t: Tables, id: nat, t1: Tables, t': Tables)
    requires Ready(t, id) && Quiet(t, id, t1) && Ready(t1, id)
    requires CountedOnce(t1, id, t')
    ensures CountedOnce(t, id, t')
  {
    var p, q := t.pledges[id], t1.pledges[id];
    if t1.pledges != t.pledges {
      SamePriors(t.pledges, id, q, p.campaign, p.backer);
    }
  }

  /** Two such lists, however different, lead to the same status, totals, tier counts and events to publish. */
  lemma {:induction false} OrderDoesNotMatter(t: Tables, id: nat, ops: seq<Op>, k: nat, ops': seq<Op>, k': nat)
    requires Inv(t) && Ready(t, id) && HonestIds(ops) && HonestIds(ops')
    requires forall op | op in ops :: ForPledge(t, id, op)
    requires forall op | op in ops' :: ForPledge(t, id, op)
    requires k < |ops| && Pays(t, ops[k])
    requires k' < |ops'| && Pays(t, ops'[k'])
    ensures var u, v := Run(t, ops), Run(t, ops');
            && u.campaigns == v.campaigns && u.tiers == v.tiers && u.outbox == v.outbox
            && id < |u.pledges| == |v.pledges|
            && u.pledges[id].status == v.pledges[id].status == Captured
            && forall i: nat | i < |u.pledges| && i != id :: u.pledges[i] == v.pledges[i]
  {
    Confluence(t, id, ops, k);
    Confluence(t, id, ops', k');
  }
}
