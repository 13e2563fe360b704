/**
 * What one step does to one pledge, told by guards the caller could evaluate before it, and what follows
 * for whole runs amid any other traffic: the first accepted capture decides the pledge's fate.
 */
module PledgeFate {
  import opened Results
  import opened PledgeModel
  import opened PledgeQueries
  import opened PledgeService
  import opened PledgeInvariant
  import opened CaptureProofs
  import opened PledgeRuns
  import opened PledgeHistory
  import opened Sums

  // ---------------------------------------------------------------- the capture a step brings

  /** A webhook that gets as far as its pledge: no fault, a new event, and rows for everything it names. */
  predicate Arrives(t: Tables, e: Webhook, fault: bool) {
    && !fault && e.id != "" && !EventRecorded(t.events, e.id)
    && (e.note.NoteId? ==> e.note.id < |t.pledges|)
    && Resolve(t, e).Ok?
  }

  /** A confirm that gets as far as its pledge. */
  predicate Admitted(t: Tables, x: ConfirmInput, signed: bool, fault: bool) {
    && !fault && x.orderId != "" && signed
    && x.pledge < |t.pledges| && t.pledges[x.pledge].backer == x.caller && t.pledges[x.pledge].orderId == x.orderId
  }

  /** The pledge a step brings a capture to, and the capture. */
  function Brings(t: Tables, op: Op): Option<(nat, Capture)> {
    match op
    case DeliverWebhook(e, fault) =>
      if Arrives(t, e, fault) && e.kind.PaymentCaptured? then Some((Resolve(t, e).value, e.capture)) else None
    case ConfirmPayment(x, signed, payments, fault) =>
      if Admitted(t, x, signed, fault) && payments.Some? && FindCapture(payments.value, x.paymentId).Some?
      then Some((x.pledge, FindCapture(payments.value, x.paymentId).value))
      else None
    case _ => None
  }

  /** The capture can be recorded: nobody else's payment, within the columns' range or, if held, positive. */
  predicate Recordable(t: Tables, id: nat, c: Capture)
    requires id < |t.pledges| && t.pledges[id].campaign < |t.campaigns|
    requires t.pledges[id].tier.Some? ==> t.pledges[id].tier.value < |t.tiers|
  {
    && !PaymentTaken(t.pledges, id, c.paymentId)
    && if Counts(t, t.pledges[id], c) then !TotalsOverflow(t, id, t.pledges[id]) else c.amount > 0
  }

  /** The step applies a capture to pledge `id`, which has none yet. */
  predicate Captures(t: Tables, op: Op, id: nat)
    requires PledgeRefs(t.campaigns, t.tiers, t.pledges)
  {
    && Brings(t, op).Some? && Brings(t, op).value.0 == id < |t.pledges|
    && !Booked(t.pledges[id].status)
    && Recordable(t, id, Brings(t, op).value.1)
  }

  /** The row it leaves behind. */
  function RowAfter(t: Tables, p: Pledge, c: Capture): Pledge {
    if Counts(t, p, c) then CapturedRow(p, c)
    else HeldRow(p, c, if c.amount != p.amount then AmountMismatch else SoldOutWhilePaying)
  }

  lemma {:induction false} ResolveIgnoresEvents(t: Tables, e: Webhook, events: seq<PaymentEvent>)
    ensures Resolve(t.(events := events), e) == Resolve(t, e)
  {
  }

  /** A capture changes its own pledge's row, or none. */
  lemma {:induction false} CaptureOutcome(t: Tables, id: nat, c: Capture)
    requires Inv(t) && id < |t.pledges|
    ensures Do(t, ApplyCapture(t, id, t.pledges[id], c), false).tables.pledges ==
            if !Booked(t.pledges[id].status) && Recordable(t, id, c)
            then t.pledges[id := RowAfter(t, t.pledges[id], c)] else t.pledges
  {
    var p := t.pledges[id];
    var r := ApplyCapture(t, id, p, c);
    if !Booked(p.status) {
      CaptureRefusedExactly(t, id, c);
    }
    if r.Ok? {
      CaptureRow(t, id, c);
      CaptureKeepsInv(t, id, c);
    }
  }

  lemma {:induction false} WebhookOutcome(t: Tables, e: Webhook)
    requires Inv(t) && Arrives(t, e, false) && e.kind.PaymentCaptured?
    ensures var id := Resolve(t, e).value;
            && id < |t.pledges|
            && Deliver(t, e, false).tables.pledges ==
               if !Booked(t.pledges[id].status) && Recordable(t, id, e.capture)
               then t.pledges[id := RowAfter(t, t.pledges[id], e.capture)] else t.pledges
  {
    var row := PaymentEvent(e.id, e.kind, NotedPledge(e.note));
    var t1 := t.(events := t.events + [row]);
    var id := Resolve(t, e).value;
    assert WebhookBody(t, e) == ApplyCapture(t1, id, t1.pledges[id], e.capture) by {
      ResolveIgnoresEvents(t, e, t1.events);
    }
    RecordedEventKeepsInv(t, row);
    CaptureOutcome(t1, id, e.capture);
    SameVerdict(t, row, id, e.capture);
  }

  /** The same, when the pledge is known and its capture counts. */
  lemma {:induction false} WebhookCounts(t: Tables, e: Webhook, id: nat)
    requires Inv(t) && id < |t.pledges| && !Booked(t.pledges[id].status)
    requires Arrives(t, e, false) && e.kind.PaymentCaptured? && Resolve(t, e) == Ok(id)
    requires Recordable(t, id, e.capture) && Counts(t, t.pledges[id], e.capture)
    ensures Deliver(t, e, false).tables.pledges == t.pledges[id := CapturedRow(t.pledges[id], e.capture)]
  {
    WebhookOutcome(t, e);
    assert RowAfter(t, t.pledges[id], e.capture) == CapturedRow(t.pledges[id], e.capture);
  }

  lemma {:induction false} SameVerdict(t: Tables, row: PaymentEvent, id: nat, c: Capture)
    requires id < |t.pledges| && t.pledges[id].campaign < |t.campaigns|
    requires t.pledges[id].tier.Some? ==> t.pledges[id].tier.value < |t.tiers|
    ensures var t1 := t.(events := t.events + [row]);
            && Recordable(t1, id, c) == Recordable(t, id, c)
            && RowAfter(t1, t1.pledges[id], c) == RowAfter(t, t.pledges[id], c)
  {
  }

  /** A webhook that brings no capture at most notes a failed attempt. */
  lemma {:induction false} QuietWebhook(t: Tables, e: Webhook, fault: bool, id: nat)
    requires id < |t.pledges| && !(Arrives(t, e, fault) && e.kind.PaymentCaptured?)
    ensures id < |Deliver(t, e, fault).tables.pledges| && Minor(t.pledges[id], Deliver(t, e, fault).tables.pledges[id])
  {
    var t1 := t.(events := t.events + [PaymentEvent(e.id, e.kind, NotedPledge(e.note))]);
    ResolveIgnoresEvents(t, e, t1.events);
  }

  /** An order is attached, or a failed attempt noted. */
  predicate Minor(p: Pledge, q: Pledge) {
    q == p.(orderId := q.orderId) || (p.status in {Created, Authorized} && q == p.(status := Failed))
  }

  lemma {:induction false} ConfirmOutcome(t: Tables, x: ConfirmInput, signed: bool, payments: Option<seq<Payment>>,
                                          fault: bool)
    requires Inv(t)
    ensures var b := Brings(t, ConfirmPayment(x, signed, payments, fault));
            var t' := Confirm(t, x, signed, payments, fault).tables;
            && (b.Some? ==> b.value.0 < |t.pledges|)
            && t'.pledges ==
               if b.Some? && !Booked(t.pledges[b.value.0].status) && Recordable(t, b.value.0, b.value.1)
               then t.pledges[b.value.0 := RowAfter(t, t.pledges[b.value.0], b.value.1)] else t.pledges
  {
    if Admitted(t, x, signed, fault) && payments.Some? {
      var paid := FindCapture(payments.value, x.paymentId);
      if paid.Some? {
        CaptureOutcome(t, x.pledge, paid.value);
      }
    }
  }

  /** All that a step does to pledge `id`: the captured or held row exactly when it captures, else little. */
  lemma {:induction false} StepOutcome(t: Tables, op: Op, id: nat)
    requires Inv(t) && id < |t.pledges|
    ensures id < |Step(t, op).pledges|
    ensures Captures(t, op, id) ==> Step(t, op).pledges[id] == RowAfter(t, t.pledges[id], Brings(t, op).value.1)
    ensures !Captures(t, op, id) ==> Minor(t.pledges[id], Step(t, op).pledges[id])
  {
    match op
    case DeliverWebhook(e, fault) =>
      if Arrives(t, e, fault) && e.kind.PaymentCaptured? {
        WebhookOutcome(t, e);
      } else {
        QuietWebhook(t, e, fault, id);
      }
    case ConfirmPayment(x, signed, payments, fault) => ConfirmOutcome(t, x, signed, payments, fault);
    case CreatePledge(x, now, _) => CreateChecked(t, x, now);
    case _ =>
  }

  // ---------------------------------------------------------------- the transition table

  /** Terminal statuses are exactly those without a way out. */
  lemma {:induction false} TerminalHasNoWayOut(s: Status)
    ensures Terminal(s) <==> forall to: Status | CanTransitionTo(s, to) :: to == s
  {
    assert Allowed(Created, Captured) && Allowed(Authorized, Captured) && Allowed(Failed, Captured);
    assert CanTransitionTo(Created, Captured) && CanTransitionTo(Authorized, Captured);
    assert CanTransitionTo(Failed, Captured);
    assert CanTransitionTo(Captured, Settled) && CanTransitionTo(RefundPending, Refunded);
  }

  /** The step holds, for refund, a capture of a pledge whose attempt had failed or was only authorized. */
  predicate HoldsAtOnce(t: Tables, op: Op, id: nat)
    requires PledgeRefs(t.campaigns, t.tiers, t.pledges)
  {
    && Captures(t, op, id)
    && t.pledges[id].status in {Failed, Authorized}
    && !Counts(t, t.pledges[id], Brings(t, op).value.1)
  }

  /**
   * A step leaves the transition table exactly when it holds a capture, of another amount or for a full
   * tier, of a FAILED or AUTHORIZED pledge; and then it makes two of the table's moves in one.
   */
  lemma {:induction false} StatusFollowsTable(t: Tables, op: Op, id: nat)
    requires Inv(t) && id < |t.pledges|
    ensures id < |Step(t, op).pledges|
    ensures var from, to := t.pledges[id].status, Step(t, op).pledges[id].status;
            && (CanTransitionTo(from, to) <==> !HoldsAtOnce(t, op, id))
            && (HoldsAtOnce(t, op, id) ==> Allowed(from, Captured) && Allowed(Captured, to))
  {
    StepOutcome(t, op, id);
  }

  // ---------------------------------------------------------------- the first capture decides

  /** What the first step that captures pledge `id` makes of it, None when none does. */
  ghost function FirstCapture(t: Tables, ops: seq<Op>, id: nat): Option<Status>
    requires Inv(t)
    decreases |ops|
  {
    if ops == [] then None
    else if Captures(t, ops[0], id) then
      Some(if Counts(t, t.pledges[id], Brings(t, ops[0]).value.1) then Captured else RefundPending)
    else
      StepKeepsInv(t, ops[0]);
      FirstCapture(Step(t, ops[0]), ops[1..], id)
  }

  /**
   * For every run, whatever other traffic it holds, and however deliveries find the pledge: the first
   * capture that can be recorded decides the pledge's status for good, and without one it has none.
   */
  lemma {:induction false} FirstCaptureDecides(t: Tables, ops: seq<Op>, id: nat)
    requires Inv(t) && id < |t.pledges| && !Booked(t.pledges[id].status)
    ensures id < |Run(t, ops).pledges|
    ensures match FirstCapture(t, ops, id)
            case None => !Booked(Run(t, ops).pledges[id].status)
            case Some(s) => Run(t, ops).pledges[id].status == s
    decreases |ops|
  {
    if ops != [] {
      var t1 := Step(t, ops[0]);
      StepKeepsInv(t, ops[0]);
      StepOutcome(t, ops[0], id);
      if Captures(t, ops[0], id) {
        BookedIsFinal(t1, ops[1..], id);
      } else {
        FirstCaptureDecides(t1, ops[1..], id);
      }
    }
  }

  /** Every capture a step brings to the unbooked pledge is of its amount, finds room, and can be recorded. */
  ghost predicate RoomStays(t: Tables, ops: seq<Op>, id: nat)
    requires Inv(t)
    decreases |ops|
  {
    ops == [] ||
    (&& (Brings(t, ops[0]).Some? && Brings(t, ops[0]).value.0 == id < |t.pledges| && !Booked(t.pledges[id].status) ==>
           Counts(t, t.pledges[id], Brings(t, ops[0]).value.1) && Recordable(t, id, Brings(t, ops[0]).value.1))
     && (StepKeepsInv(t, ops[0]); RoomStays(Step(t, ops[0]), ops[1..], id)))
  }

  /** Some step brings pledge `id` a capture. */
  ghost predicate BroughtTo(t: Tables, ops: seq<Op>, id: nat)
    decreases |ops|
  {
    ops != [] &&
    ((Brings(t, ops[0]).Some? && Brings(t, ops[0]).value.0 == id) || BroughtTo(Step(t, ops[0]), ops[1..], id))
  }

  lemma {:induction false} PaidCaptures(t: Tables, ops: seq<Op>, id: nat)
    requires Inv(t) && id < |t.pledges| && !Booked(t.pledges[id].status) && RoomStays(t, ops, id)
    ensures FirstCapture(t, ops, id) == if BroughtTo(t, ops, id) then Some(Captured) else None
    decreases |ops|
  {
    if ops != [] {
      StepKeepsInv(t, ops[0]);
      StepOutcome(t, ops[0], id);
      if !Captures(t, ops[0], id) {
        PaidCaptures(Step(t, ops[0]), ops[1..], id);
      }
    }
  }

  /** Status and announcements of a pledge. */
  ghost predicate Ends(u: Tables, id: nat, paid: bool) {
    && id < |u.pledges|
    && (if paid then u.pledges[id].status == Captured else !Booked(u.pledges[id].status))
    && Sum(u.outbox, Announcing(id)) == (if paid then 1 else 0)
    && Sum(u.outbox, Refunding(id)) == 0
    && (LedgerTxn(PledgeCapture, id) in u.txns <==> paid)
    && u.pledges[id].campaign < |u.campaigns|
    && u.campaigns[u.pledges[id].campaign].raised == Sum(u.pledges, Raising(u.pledges[id].campaign))
  }

  /**
   * Confluence amid any traffic: as long as the pledge's tier keeps room and its captures carry its amount,
   * any order and multiplicity of deliveries, by order or noted id, before or after the order is attached,
   * ends CAPTURED with one event, and its amount in its campaign's total, exactly when one brought a capture.
   */
  lemma {:induction false} ConfluenceAmidTraffic(t: Tables, ops: seq<Op>, id: nat)
    requires Inv(t) && id < |t.pledges| && !Booked(t.pledges[id].status) && RoomStays(t, ops, id)
    ensures Ends(Run(t, ops), id, BroughtTo(t, ops, id))
  {
    PaidCaptures(t, ops, id);
    FirstCaptureDecides(t, ops, id);
    RunKeepsInv(t, ops);
  }

  // ---------------------------------------------------------------- how pledges come about

  /** What the backer asked for is what the row says. */
  predicate SameTerms(p: Pledge, x: CreateInput) {
    p.campaign == x.campaign && p.backer == x.backer && p.tier == x.tier && p.amount == x.amount
  }

  /** Step k of the run inserted pledge `id`, and what the service promises held at that moment. */
  ghost predicate InsertedBy(ops: seq<Op>, k: nat, id: nat, p: Pledge) {
    && k < |ops| && ops[k].CreatePledge?
    && var s := Run(EMPTY, ops[..k]);
    && |s.pledges| == id && Acceptable(s, ops[k].input, ops[k].now) && SameTerms(p, ops[k].input)
  }

  lemma {:induction false} StepCreates(t: Tables, op: Op)
    requires Inv(t)
    ensures |Step(t, op).pledges| > |t.pledges| ==>
              && op.CreatePledge? && Acceptable(t, op.input, op.now)
              && Step(t, op).pledges == t.pledges + [NewPledge(op.input)]
  {
    match op
    case DeliverWebhook(e, fault) =>
      if Arrives(t, e, fault) && e.kind.PaymentCaptured? {
        WebhookOutcome(t, e);
      } else {
        QuietWebhookCount(t, e, fault);
      }
    case ConfirmPayment(x, signed, payments, fault) => ConfirmOutcome(t, x, signed, payments, fault);
    case CreatePledge(x, now, _) => CreateChecked(t, x, now);
    case _ =>
  }

  lemma {:induction false} QuietWebhookCount(t: Tables, e: Webhook, fault: bool)
    requires !(Arrives(t, e, fault) && e.kind.PaymentCaptured?)
    ensures |Deliver(t, e, fault).tables.pledges| == |t.pledges|
  {
    var t1 := t.(events := t.events + [PaymentEvent(e.id, e.kind, NotedPledge(e.note))]);
    ResolveIgnoresEvents(t, e, t1.events);
  }

  /**
   * Every pledge there ever is was inserted for a live campaign at least a minute before its deadline, by
   * someone else than its creator, with a tier of that campaign that had room, and still says so.
   */
  lemma {:induction false} PledgesWereChecked(ops: seq<Op>, id: nat)
    requires id < |Run(EMPTY, ops).pledges|
    ensures exists k: nat :: InsertedBy(ops, k, id, Run(EMPTY, ops).pledges[id])
    decreases |ops|
  {
    if ops != [] {
      var front, op := ops[..|ops| - 1], ops[|ops| - 1];
      var s := Run(EMPTY, front);
      assert ops == front + [op];
      RunLast(EMPTY, front, op);
      EmptySatisfiesInv();
      RunKeepsInv(EMPTY, front);
      StepCreates(s, op);
      if id < |s.pledges| {
        PledgesWereChecked(front, id);
        var k: nat :| InsertedBy(front, k, id, s.pledges[id]);
        StepOutcome(s, op, id);
        assert ops[..k] == front[..k];
        assert InsertedBy(ops, k, id, Run(EMPTY, ops).pledges[id]);
      } else {
        assert InsertedBy(ops, |ops| - 1, id, Run(EMPTY, ops).pledges[id]);
      }
    }
  }
}
