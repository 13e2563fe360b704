/**
 * The pledge service as functions on the tables: ledger recording, capture, refund hold, failure,
 * webhook and confirm. Each request runs its body and then commits or restores the tables.
 */
module PledgeService {
  import opened Results
  import opened PledgeModel
  import opened PledgeQueries

  datatype Capture = Capture(paymentId: string, amount: Int64, fee: Int64, tax: Int64)

  /** The rows that book a capture of `amount` to the credited account, less the gateway's fee. */
  function CaptureRows(accounts: seq<Account>, txn: nat, amount: int, fee: int, credited: Account): seq<Entry>
    requires Account(PlatformEscrow, None) in accounts && credited in accounts
    requires fee > 0 ==> Account(GatewayFeeExpense, None) in accounts
  {
    var escrow := AccountId(accounts, Account(PlatformEscrow, None));
    [ Entry(txn, escrow, Debit, amount),
      Entry(txn, AccountId(accounts, credited), Credit, amount) ] +
    if fee > 0 then
      [ Entry(txn, AccountId(accounts, Account(GatewayFeeExpense, None)), Debit, fee),
        Entry(txn, escrow, Credit, fee) ]
    else []
  }

  function CaptureAccounts(accounts: seq<Account>, fee: int, credited: Account): (r: seq<Account>)
    ensures Account(PlatformEscrow, None) in r && credited in r
    ensures fee > 0 ==> Account(GatewayFeeExpense, None) in r
  {
    var two := EnsureAccount(EnsureAccount(accounts, Account(PlatformEscrow, None)), credited);
    if fee > 0 then EnsureAccount(two, Account(GatewayFeeExpense, None)) else two
  }

  function RecordCapture(t: Tables, id: nat, amount: int, fee: int, credited: Account): Result<Tables> {
    if LedgerTxn(PledgeCapture, id) in t.txns then Ok(t)
    else
      var accounts := CaptureAccounts(t.accounts, fee, credited);
      var rows := CaptureRows(accounts, |t.txns|, amount, fee, credited);
      var entries :- InsertEntries(t.entries, rows);
      Ok(t.(txns := t.txns + [LedgerTxn(PledgeCapture, id)], accounts := accounts, entries := entries))
  }

  function HoldForRefund(t: Tables, id: nat, p: Pledge, c: Capture, reason: RefundReason): Result<Tables> {
    var t1 :- MarkRefundPending(t, id, c.paymentId, reason);
    var t2 :- RecordCapture(t1, id, c.amount, WrappingAdd(c.fee, c.tax), Account(BackerRefundPayable, Some(p.backer)));
    Ok(InsertOutbox(t2, RefundRequired(id, p.campaign, p.backer, c.amount, c.paymentId, reason)))
  }

  /** The pledge, campaign and tier rows of a counted capture. */
  function CountTotals(t: Tables, id: nat, p: Pledge, c: Capture): Result<Tables> {
    var t1 :- MarkCaptured(t, id, c.paymentId);
    var t2 :- IncrementRaised(t1, id, p);
    if p.tier.Some? then IncrementClaimed(t2, p.tier.value) else Ok(t2)
  }

  function CountCapture(t: Tables, id: nat, p: Pledge, c: Capture): Result<Tables> {
    var t1 :- CountTotals(t, id, p, c);
    var t2 :- RecordCapture(t1, id, p.amount, WrappingAdd(c.fee, c.tax), Account(CampaignEscrow, Some(p.campaign)));
    Ok(InsertOutbox(t2, PledgeCaptured(id, p.campaign, p.backer, p.amount)))
  }

  /** A capture that moves a pledge which has none yet. `p` is the row read for pledge `id`. */
  function ApplyCapture(t: Tables, id: nat, p: Pledge, c: Capture): Result<Tables> {
    if Booked(p.status) then Ok(t)
    else if !CanTransitionTo(p.status, Captured) then Err(IllegalTransition)
    else if c.amount != p.amount then HoldForRefund(t, id, p, c, AmountMismatch)
    else if p.tier.Some? then
      var tier :- GetTier(t, p.tier.value);
      if SoldOut(tier) then HoldForRefund(t, id, p, c, SoldOutWhilePaying) else CountCapture(t, id, p, c)
    else CountCapture(t, id, p, c)
  }

  function ApplyFailure(t: Tables, id: nat, p: Pledge): Tables {
    if p.status == Failed || Terminal(p.status) || !CanTransitionTo(p.status, Failed) then t
    else SetStatus(t, id, Failed)
  }

  // ---------------------------------------------------------------- transactions

  datatype Outcome = Outcome(tables: Tables, error: Option<Error>)

  /**
   * Run-then-commit-or-restore. `fault` is an I/O error at a statement the body reaches or at the commit,
   * whatever the body would have come to; the deferred balance trigger is checked at the commit.
   */
  function Do(t: Tables, body: Result<Tables>, fault: bool): Outcome {
    if fault then Outcome(t, Some(IoFault))
    else
      match body
      case Err(e) => Outcome(t, Some(e))
      case Ok(t') =>
        if !AllBalanced(t'.txns, t'.entries) then Outcome(t, Some(Unbalanced)) else Outcome(t', None)
  }

  // ---------------------------------------------------------------- requests

  datatype CreateInput = CreateInput(campaign: nat, backer: nat, tier: Option<nat>, amount: Int64)

  function CheckTier(t: Tables, x: CreateInput): Result<()> {
    if x.tier.None? then Ok(())
    else
      var tier :- GetTier(t, x.tier.value);
      if tier.campaign != x.campaign then Err(TierMismatch)
      else if x.amount < tier.minAmount then Err(AmountBelowTier)
      else if SoldOut(tier) then Err(TierSoldOut)
      else Ok(())
  }

  function NewPledge(x: CreateInput): Pledge {
    Pledge(x.campaign, x.backer, x.tier, x.amount, Created, "", None, None)
  }

  /** The database half of CreatePledge; the new row has no order id yet. */
  function CreateBody(t: Tables, x: CreateInput, now: int): Result<Tables> {
    var c :- GetCampaign(t, x.campaign);
    if !c.live then Err(CampaignNotLive)
    else if c.deadline.Some? && now > c.deadline.value - 60 then Err(DeadlinePassed)
    else if c.creator == x.backer then Err(CreatorCannotPledge)
    else
      var _ :- CheckTier(t, x);
      InsertPledge(t, NewPledge(x))
  }

  datatype Payment = Payment(id: string, captured: bool, amount: Int64, fee: Int64, tax: Int64)

  function CaptureOf(p: Payment): Capture {
    Capture(p.id, p.amount, p.fee, p.tax)
  }

  /** The captured payment with the preferred id if there is one, else the first captured one. */
  function FindCapture(payments: seq<Payment>, prefer: string): Option<Capture> {
    if exists i | 0 <= i < |payments| :: payments[i].captured && payments[i].id == prefer then
      FirstCapture(payments, (p: Payment) => p.captured && p.id == prefer)
    else
      FirstCapture(payments, (p: Payment) => p.captured)
  }

  function FirstCapture(payments: seq<Payment>, want: Payment -> bool): Option<Capture> {
    if payments == [] then None
    else if want(payments[0]) then Some(CaptureOf(payments[0]))
    else FirstCapture(payments[1..], want)
  }

  datatype ConfirmInput = ConfirmInput(pledge: nat, caller: nat, orderId: string, paymentId: string)

  function ConfirmBody(t: Tables, x: ConfirmInput, paid: Option<Capture>): Result<Tables> {
    if x.pledge >= |t.pledges| then Err(PledgeNotFound)
    else
      var p := t.pledges[x.pledge];
      if p.backer != x.caller then Err(NotYourPledge)
      else if p.orderId != x.orderId then Err(OrderMismatch)
      else if paid.None? then Ok(t)
      else ApplyCapture(t, x.pledge, p, paid.value)
  }

  /**
   * ConfirmPayment: `signed` is the verdict on the checkout signature, `payments` what the provider
   * answered for the order (None when it could not be reached).
   */
  function Confirm(t: Tables, x: ConfirmInput, signed: bool, payments: Option<seq<Payment>>, fault: bool): Outcome {
    if x.orderId == "" then Outcome(t, Some(MissingOrder))
    else if !signed then Outcome(t, Some(BadSignature))
    else if payments.None? then Outcome(t, Some(ProviderUnavailable))
    else Do(t, ConfirmBody(t, x, FindCapture(payments.value, x.paymentId)), fault)
  }

  /** The pledge id in a payment's notes: absent, not a UUID, or parsed. */
  datatype Note = NoNote | BadNote | NoteId(id: nat)

  datatype Webhook = Webhook(id: string, kind: EventKind, orderId: string, note: Note, capture: Capture)

  function NotedPledge(n: Note): Option<nat> {
    if n.NoteId? then Some(n.id) else None
  }

  /** The pledge an event belongs to: by order id, or by the noted pledge id when no row has the order. */
  function Resolve(t: Tables, e: Webhook): Result<nat> {
    if e.orderId == "" then Err(NoOrderId)
    else
      match GetPledgeByOrder(t, e.orderId)
      case Ok(id) => Ok(id)
      case Err(_) =>
        match e.note
        case NoNote => Err(NoRows)
        case BadNote => Err(MalformedNote)
        case NoteId(id) => var _ :- GetPledge(t, id); Ok(id)
  }

  function WebhookBody(t: Tables, e: Webhook): Result<Tables> {
    var t1 :- InsertEvent(t, PaymentEvent(e.id, e.kind, NotedPledge(e.note)));
    match e.kind
    case PaymentCaptured =>
      var id :- Resolve(t1, e);
      var p :- GetPledge(t1, id);
      ApplyCapture(t1, id, p, e.capture)
    case PaymentFailed =>
      var id :- Resolve(t1, e);
      var p :- GetPledge(t1, id);
      Ok(ApplyFailure(t1, id, p))
    case OtherEvent => Ok(t1)
  }

  /** HandleWebhook behind an absent Redis: Postgres alone decides. */
  function Deliver(t: Tables, e: Webhook, fault: bool): Outcome {
    if e.id == "" then Outcome(t, Some(MalformedEvent)) else Do(t, WebhookBody(t, e), fault)
  }

  // ---------------------------------------------------------------- runs

  /** One step of the system. The first three are rows other components write. */
  datatype Op =
    | AddCampaign(creator: nat)
    | AddTier(campaign: nat, minAmount: int, limit: Option<int>)
    | PublishCampaign(campaign: nat, live: bool, deadline: Option<int>)
    | CreatePledge(input: CreateInput, now: int, fault: bool)
    | Attach(pledge: nat, orderId: string)
    | DeliverWebhook(event: Webhook, fault: bool)
    | ConfirmPayment(confirm: ConfirmInput, signed: bool, payments: Option<seq<Payment>>, fault: bool)

  function Step(t: Tables, op: Op): Tables {
    match op
    case AddCampaign(creator) => t.(campaigns := t.campaigns + [Campaign(creator, false, None, 0, 0)])
    case AddTier(campaign, minAmount, limit) =>
      if campaign < |t.campaigns| && (limit.Some? ==> limit.value > 0)
      then t.(tiers := t.tiers + [Tier(campaign, minAmount, limit, 0)])
      else t
    case PublishCampaign(c, live, deadline) =>
      if c < |t.campaigns| && (live ==> deadline.Some?)
      then t.(campaigns := t.campaigns[c := t.campaigns[c].(live := live, deadline := deadline)])
      else t
    case CreatePledge(x, now, fault) => Do(t, CreateBody(t, x, now), fault).tables
    case Attach(id, orderId) =>
      (match AttachOrder(t, id, orderId)
       case Ok(t') => t'
       case Err(_) => t)
    case DeliverWebhook(e, fault) => Deliver(t, e, fault).tables
    case ConfirmPayment(x, signed, payments, fault) => Confirm(t, x, signed, payments, fault).tables
  }

  function Run(t: Tables, ops: seq<Op>): Tables
    decreases |ops|
  {
    if ops == [] then t else Run(Step(t, ops[0]), ops[1..])
  }
}
