/**
 * What each request does to the pledge rows, told by the request's own fields and the rows it finds: which
 * pledge an event belongs to, which payment a confirm takes, and what every kind of event leaves behind.
 */
module PledgeRequests {
  import opened Results
  import opened PledgeModel
  import opened PledgeQueries
  import opened PledgeService
  import opened PledgeInvariant
  import opened CaptureProofs
  import opened PledgeRuns
  import opened PledgeHistory
  import opened PledgeFate

  // ---------------------------------------------------------------- which pledge an event belongs to

  /** The row carries the event's order; or no row does, and the event's note names the row. */
  predicate BelongsTo(t: Tables, e: Webhook, id: nat) {
    && e.orderId != "" && id < |t.pledges|
    && (|| t.pledges[id].orderId == e.orderId
        || (e.note == NoteId(id) && forall i: nat | i < |t.pledges| :: t.pledges[i].orderId != e.orderId))
  }

  /** An event is resolved exactly to the one pledge it belongs to, and is refused when there is none. */
  lemma {:induction false} ResolvesExactly(t: Tables, e: Webhook, id: nat)
    requires KeysUnique(t.pledges)
    ensures Resolve(t, e) == Ok(id) <==> BelongsTo(t, e, id)
    ensures Resolve(t, e).Err? <==> forall i: nat :: !BelongsTo(t, e, i)
  {
    if Resolve(t, e).Ok? {
      assert BelongsTo(t, e, Resolve(t, e).value);
    }
  }

  /** The event is new and names no missing pledge, and nothing fails under way. */
  predicate Fresh(t: Tables, e: Webhook, fault: bool) {
    && !fault && e.id != "" && (forall i: nat | i < |t.events| :: t.events[i].id != e.id)
    && (e.note.NoteId? ==> e.note.id < |t.pledges|)
  }

  lemma {:induction false} FreshArrives(t: Tables, e: Webhook, fault: bool, id: nat)
    requires KeysUnique(t.pledges) && BelongsTo(t, e, id)
    ensures Arrives(t, e, fault) <==> Fresh(t, e, fault)
    ensures Resolve(t, e) == Ok(id)
  {
    ResolvesExactly(t, e, id);
  }

  /** No capture yet: the statuses a capture can still change. */
  predicate Open(p: Pledge) {
    p.status == Created || p.status == Authorized || p.status == Failed
  }

  /** A fresh captured event gives the pledge it belongs to its captured or held row, if it can, and changes no other. */
  lemma {:induction false} CapturedWebhook(t: Tables, e: Webhook, id: nat)
    requires Inv(t) && Fresh(t, e, false) && e.kind.PaymentCaptured? && BelongsTo(t, e, id)
    ensures Deliver(t, e, false).tables.pledges ==
            if Open(t.pledges[id]) && Recordable(t, id, e.capture)
            then t.pledges[id := RowAfter(t, t.pledges[id], e.capture)] else t.pledges
  {
    FreshArrives(t, e, false, id);
    WebhookOutcome(t, e);
  }

  lemma {:induction false} FailureCommits(t: Tables, e: Webhook, id: nat)
    requires Inv(t) && Fresh(t, e, false) && e.kind.PaymentFailed? && Resolve(t, e) == Ok(id) && id < |t.pledges|
    ensures var t1 := t.(events := t.events + [PaymentEvent(e.id, e.kind, NotedPledge(e.note))]);
            Deliver(t, e, false) == Outcome(ApplyFailure(t1, id, t1.pledges[id]), None)
  {
    var t1 := t.(events := t.events + [PaymentEvent(e.id, e.kind, NotedPledge(e.note))]);
    ResolveIgnoresEvents(t, e, t1.events);
    assert WebhookBody(t, e) == Ok(ApplyFailure(t1, id, t1.pledges[id]));
  }

  /** A fresh failed event makes the pledge it belongs to FAILED if it was CREATED or AUTHORIZED; that is all. */
  lemma {:induction false} FailedWebhook(t: Tables, e: Webhook, id: nat)
    requires Inv(t) && Fresh(t, e, false) && e.kind.PaymentFailed? && BelongsTo(t, e, id)
    ensures Deliver(t, e, false).error.None?
    ensures var row := PaymentEvent(e.id, PaymentFailed, if e.note.NoteId? then Some(e.note.id) else None);
            Deliver(t, e, false).tables ==
            t.(events := t.events + [row],
               pledges := if t.pledges[id].status == Created || t.pledges[id].status == Authorized
                          then t.pledges[id := t.pledges[id].(status := Failed)] else t.pledges)
  {
    FreshArrives(t, e, false, id);
    FailureCommits(t, e, id);
  }

  /** An event of another kind is recorded, whatever it names, and changes nothing else. */
  lemma {:induction false} OtherWebhook(t: Tables, e: Webhook)
    requires Inv(t) && Fresh(t, e, false) && e.kind.OtherEvent?
    ensures var row := PaymentEvent(e.id, OtherEvent, if e.note.NoteId? then Some(e.note.id) else None);
            Deliver(t, e, false) == Outcome(t.(events := t.events + [row]), None)
  {
    var t1 := t.(events := t.events + [PaymentEvent(e.id, e.kind, NotedPledge(e.note))]);
    assert WebhookBody(t, e) == Ok(t1);
  }

  /** An event that is not fresh, or that asks for a pledge and belongs to none, is refused and leaves no trace. */
  lemma {:induction false} RefusedWebhook(t: Tables, e: Webhook, fault: bool)
    requires KeysUnique(t.pledges)
    requires !Fresh(t, e, fault) || (!e.kind.OtherEvent? && forall i: nat :: !BelongsTo(t, e, i))
    ensures Deliver(t, e, fault).error.Some? && Deliver(t, e, fault).tables == t
  {
    if Fresh(t, e, fault) {
      var t1 := t.(events := t.events + [PaymentEvent(e.id, e.kind, NotedPledge(e.note))]);
      ResolveIgnoresEvents(t, e, t1.events);
      ResolvesExactly(t, e, 0);
    }
  }

  // ---------------------------------------------------------------- which payment a confirm takes

  /** A confirm takes payment i: it is captured; of the preferred id, else nothing is; and none before it is as good. */
  predicate Takes(payments: seq<Payment>, prefer: string, i: nat) {
    && i < |payments| && payments[i].captured
    && if exists j: nat :: j < |payments| && payments[j].captured && payments[j].id == prefer
       then payments[i].id == prefer && forall j: nat | j < i :: !(payments[j].captured && payments[j].id == prefer)
       else forall j: nat | j < i :: !payments[j].captured
  }

  /** The capture carries the payment's own numbers. */
  predicate CarriesPayment(c: Capture, p: Payment) {
    c.paymentId == p.id && c.amount == p.amount && c.fee == p.fee && c.tax == p.tax
  }

  lemma {:induction false} FirstCaptureTakes(payments: seq<Payment>, want: Payment -> bool)
    ensures match PledgeService.FirstCapture(payments, want)
            case None => forall j: nat | j < |payments| :: !want(payments[j])
            case Some(c) => exists i: nat :: i < |payments| && want(payments[i]) && CarriesPayment(c, payments[i])
                                             && forall j: nat | j < i :: !want(payments[j])
  {
    if payments != [] && !want(payments[0]) {
      FirstCaptureTakes(payments[1..], want);
      match PledgeService.FirstCapture(payments[1..], want) {
        case None =>
          forall j: nat | j < |payments| ensures !want(payments[j]) {
            if j > 0 {
              assert payments[1..][j - 1] == payments[j];
            }
          }
        case Some(c) =>
          var i: nat :| i < |payments| - 1 && want(payments[1..][i]) && CarriesPayment(c, payments[1..][i])
                        && forall j: nat | j < i :: !want(payments[1..][j]);
          forall j: nat | j < i + 1 ensures !want(payments[j]) {
            if j > 0 {
              assert payments[1..][j - 1] == payments[j];
            }
          }
          assert want(payments[i + 1]) && CarriesPayment(c, payments[i + 1]);
      }
    }
  }

  /** What is found among the payments is the one taken, with its own id, amount, fee and tax. */
  lemma {:induction false} FoundIsTaken(payments: seq<Payment>, prefer: string)
    ensures match FindCapture(payments, prefer)
            case None => forall j: nat | j < |payments| :: !payments[j].captured
            case Some(c) => exists i: nat :: Takes(payments, prefer, i) && CarriesPayment(c, payments[i])
  {
    var preferred := (p: Payment) => p.captured && p.id == prefer;
    var any := (p: Payment) => p.captured;
    FirstCaptureTakes(payments, preferred);
    FirstCaptureTakes(payments, any);
    if c: Capture :| FindCapture(payments, prefer) == Some(c) {
      if exists j: nat :: j < |payments| && payments[j].captured && payments[j].id == prefer {
        var i: nat :| i < |payments| && preferred(payments[i]) && CarriesPayment(c, payments[i])
                      && forall j: nat | j < i :: !preferred(payments[j]);
        assert Takes(payments, prefer, i);
      } else {
        var i: nat :| i < |payments| && any(payments[i]) && CarriesPayment(c, payments[i])
                      && forall j: nat | j < i :: !any(payments[j]);
        assert Takes(payments, prefer, i);
      }
    }
  }

  /** At most one payment is taken. */
  lemma {:induction false} OneIsTaken(payments: seq<Payment>, prefer: string, i: nat, j: nat)
    requires Takes(payments, prefer, i) && Takes(payments, prefer, j)
    ensures i == j
  {
  }

  lemma {:induction false} TakenIsFound(payments: seq<Payment>, prefer: string, i: nat)
    requires Takes(payments, prefer, i)
    ensures FindCapture(payments, prefer)
            == Some(Capture(payments[i].id, payments[i].amount, payments[i].fee, payments[i].tax))
  {
    FoundIsTaken(payments, prefer);
    var c := FindCapture(payments, prefer).value;
    var k: nat :| Takes(payments, prefer, k) && CarriesPayment(c, payments[k]);
    OneIsTaken(payments, prefer, i, k);
  }

  lemma {:induction false} ConfirmBrings(t: Tables, x: ConfirmInput, payments: seq<Payment>, c: Capture)
    requires Inv(t) && x.orderId != "" && x.pledge < |t.pledges| && FindCapture(payments, x.paymentId) == Some(c)
    requires t.pledges[x.pledge].backer == x.caller && t.pledges[x.pledge].orderId == x.orderId
    ensures Confirm(t, x, true, Some(payments), false).tables.pledges ==
            if !Booked(t.pledges[x.pledge].status) && Recordable(t, x.pledge, c)
            then t.pledges[x.pledge := RowAfter(t, t.pledges[x.pledge], c)] else t.pledges
  {
    ConfirmOutcome(t, x, true, Some(payments), false);
  }

  lemma {:induction false} OpenIsUnbooked(p: Pledge)
    ensures Open(p) <==> !Booked(p.status)
  {
  }

  /**
   * A confirm by the pledge's backer with its order gives the pledge the captured or held row of the payment
   * taken, if it has no capture yet and this one can be recorded.
   */
  lemma {:induction false} ConfirmTakes(t: Tables, x: ConfirmInput, payments: seq<Payment>, i: nat)
    requires Inv(t) && x.orderId != "" && x.pledge < |t.pledges|
    requires t.pledges[x.pledge].backer == x.caller && t.pledges[x.pledge].orderId == x.orderId
    requires Takes(payments, x.paymentId, i)
    ensures var p, c := t.pledges[x.pledge], Capture(payments[i].id, payments[i].amount, payments[i].fee, payments[i].tax);
            Confirm(t, x, true, Some(payments), false).tables.pledges ==
            if Open(p) && Recordable(t, x.pledge, c) then t.pledges[x.pledge := RowAfter(t, p, c)] else t.pledges
  {
    TakenIsFound(payments, x.paymentId, i);
    ConfirmBrings(t, x, payments, Capture(payments[i].id, payments[i].amount, payments[i].fee, payments[i].tax));
    OpenIsUnbooked(t.pledges[x.pledge]);
  }

  /** Any other confirm changes nothing at all. */
  lemma {:induction false} OtherConfirms(t: Tables, x: ConfirmInput, signed: bool, payments: Option<seq<Payment>>,
                                         fault: bool)
    requires || fault || !signed || payments.None? || x.orderId == "" || x.pledge >= |t.pledges|
             || t.pledges[x.pledge].backer != x.caller || t.pledges[x.pledge].orderId != x.orderId
             || forall j: nat | j < |payments.value| :: !payments.value[j].captured
    ensures Confirm(t, x, signed, payments, fault).tables == t
  {
    if payments.Some? {
      FoundIsTaken(payments.value, x.paymentId);
    }
  }

  // ---------------------------------------------------------------- the other requests

  /** CreatePledge adds one open row with the terms asked for, or changes nothing. */
  lemma {:induction false} CreateInserts(t: Tables, x: CreateInput, now: int, fault: bool)
    requires Inv(t)
    ensures var t' := Step(t, CreatePledge(x, now, fault));
            if !fault && Acceptable(t, x, now) && forall i: nat | i < |t.pledges| :: t.pledges[i].orderId != "" then
              && t' == t.(pledges := t'.pledges) && |t'.pledges| == |t.pledges| + 1 && t'.pledges[..|t.pledges|] == t.pledges
              && var p := t'.pledges[|t.pledges|];
              && p.campaign == x.campaign && p.backer == x.backer && p.tier == x.tier && p.amount == x.amount
              && p.status == Created && p.orderId == "" && p.paymentId.None? && p.reason.None?
            else t' == t
  {
    CreateChecked(t, x, now);
  }

  /** An order is attached to its pledge exactly when no other row has it. */
  lemma {:induction false} AttachExactly(t: Tables, id: nat, orderId: string)
    ensures Step(t, Attach(id, orderId)) ==
            if id < |t.pledges| && forall i: nat | i < |t.pledges| && i != id :: t.pledges[i].orderId != orderId
            then t.(pledges := t.pledges[id := t.pledges[id].(orderId := orderId)]) else t
  {
    if id < |t.pledges| {
      assert OrderTaken(t.pledges, id, orderId)
             <==> exists i: nat :: i < |t.pledges| && i != id && t.pledges[i].orderId == orderId by {
        if OrderTaken(t.pledges, id, orderId) {
          var i :| 0 <= i < |t.pledges| && i != id && t.pledges[i].orderId == orderId;
        }
      }
    }
  }

  /** A transaction commits exactly when nothing failed and every ledger transaction's entries cancel out. */
  lemma {:induction false} CommitsExactly(t: Tables, body: Result<Tables>, fault: bool)
    ensures var o := Do(t, body, fault);
            if !fault && body.Ok? && forall k: nat | k < |body.value.txns| :: Imbalance(body.value.entries, k) == 0
            then o.error.None? && o.tables == body.value
            else o.error.Some? && o.tables == t
  {
  }

  /** An event that is on record already is answered as a duplicate, whatever else is wrong with it. */
  lemma {:induction false} RepeatedWebhook(t: Tables, e: Webhook, i: nat)
    requires e.id != "" && i < |t.events| && t.events[i].id == e.id
    ensures Deliver(t, e, false) == Outcome(t, Some(DuplicateEvent))
  {
    assert EventRecorded(t.events, e.id);
  }

  /** In any tables at all: a capture on the books is not booked again, so recording is idempotent. */
  lemma {:induction false} RecordingRepeats(t: Tables, id: nat, amount: int, fee: int, credited: Account)
    ensures (exists k: nat :: k < |t.txns| && t.txns[k] == LedgerTxn(PledgeCapture, id)) ==>
              RecordCapture(t, id, amount, fee, credited) == Ok(t)
    ensures RecordCapture(t, id, amount, fee, credited).Ok? ==>
              var t1 := RecordCapture(t, id, amount, fee, credited).value;
              RecordCapture(t1, id, amount, fee, credited) == Ok(t1)
  {
    assert LedgerTxn(PledgeCapture, id) in t.txns + [LedgerTxn(PledgeCapture, id)];
  }

  /** In any tables at all: a tier's claimed count goes up by one within its limit and the column's range, or not at all. */
  lemma {:induction false} ClaimedWithinLimit(t: Tables, id: nat)
    requires id < |t.tiers|
    ensures var r, x := IncrementClaimed(t, id), t.tiers[id];
            && (r.Ok? <==> x.claimed < 2_147_483_647 && (x.limit.Some? ==> x.claimed < x.limit.value))
            && (r.Ok? ==> r.value == t.(tiers := t.tiers[id := x.(claimed := x.claimed + 1)]))
  {
  }

  /** Why a pledge is not created: each error says what it names. */
  lemma {:induction false} CreateErrorsMean(t: Tables, x: CreateInput, now: int)
    requires CreateBody(t, x, now).Err?
    ensures match CreateBody(t, x, now).error
            case NoRows => || x.campaign >= |t.campaigns| || t.campaigns[x.campaign].deadline.None?
                           || (x.tier.Some? && x.tier.value >= |t.tiers|)
            case CampaignNotLive => x.campaign < |t.campaigns| && !t.campaigns[x.campaign].live
            case DeadlinePassed => x.campaign < |t.campaigns| && t.campaigns[x.campaign].deadline.Some?
                                   && t.campaigns[x.campaign].deadline.value < now + 60
            case CreatorCannotPledge => x.campaign < |t.campaigns| && t.campaigns[x.campaign].creator == x.backer
            case TierMismatch => x.tier.Some? && x.tier.value < |t.tiers| && t.tiers[x.tier.value].campaign != x.campaign
            case AmountBelowTier => x.tier.Some? && x.tier.value < |t.tiers| && x.amount < t.tiers[x.tier.value].minAmount
            case TierSoldOut => && x.tier.Some? && x.tier.value < |t.tiers| && t.tiers[x.tier.value].limit.Some?
                                && t.tiers[x.tier.value].limit.value <= t.tiers[x.tier.value].claimed
            case CheckViolation => x.amount <= 0
            case UniqueViolation => exists i: nat :: i < |t.pledges| && t.pledges[i].orderId == ""
            case _ => false
  {
  }

  lemma {:induction false} CaptureErrorsMean(t: Tables, id: nat, p: Pledge, c: Capture)
    ensures var r := ApplyCapture(t, id, p, c);
            r.Err? ==> r.error in {NoRows, UniqueViolation, CheckViolation, OutOfRange, Error.IllegalTransition}
  {
  }

  /** Why a confirm without a fault is refused before any capture. */
  lemma {:induction false} ConfirmErrorsMean(t: Tables, x: ConfirmInput, signed: bool, payments: Option<seq<Payment>>)
    ensures match Confirm(t, x, signed, payments, false).error
            case Some(MissingOrder) => x.orderId == ""
            case Some(BadSignature) => !signed
            case Some(ProviderUnavailable) => payments.None?
            case Some(PledgeNotFound) => x.pledge >= |t.pledges|
            case Some(NotYourPledge) => x.pledge < |t.pledges| && t.pledges[x.pledge].backer != x.caller
            case Some(OrderMismatch) => x.pledge < |t.pledges| && t.pledges[x.pledge].orderId != x.orderId
            case _ => true
  {
    if payments.Some? && x.pledge < |t.pledges| && FindCapture(payments.value, x.paymentId).Some? {
      CaptureErrorsMean(t, x.pledge, t.pledges[x.pledge], FindCapture(payments.value, x.paymentId).value);
    }
  }
}
