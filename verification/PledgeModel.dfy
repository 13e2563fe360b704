/** Pledge statuses, their transition table, and the row types of the pledge tables. */
module PledgeModel {
  import opened Results

  datatype Status =
    | Created
    | Authorized
    | Captured
    | Failed
    | RefundPending
    | Refunded
    | RefundFailed
    | Settled

  /** The edges of the transition table. */
  predicate Allowed(from: Status, to: Status) {
    match from
    case Created => to in {Authorized, Captured, Failed, RefundPending}
    case Authorized => to in {Captured, Failed}
    case Failed => to == Captured
    case Captured => to in {RefundPending, Settled}
    case RefundPending => to in {Refunded, RefundFailed}
    case _ => false
  }

  predicate CanTransitionTo(from: Status, to: Status) {
    from == to || Allowed(from, to)
  }

  predicate Terminal(s: Status) {
    s in {Refunded, Settled, RefundFailed}
  }

  /** The pledge's money counts toward its campaign. */
  predicate Counted(s: Status) {
    s == Captured || s == Settled
  }

  /** The pledge's money was captured but goes back to the backer. */
  predicate Held(s: Status) {
    s in {RefundPending, Refunded, RefundFailed}
  }

  /** A capture has already been applied to the pledge, either way. */
  predicate Booked(s: Status) {
    Counted(s) || Held(s)
  }

  datatype Campaign = Campaign(creator: nat, live: bool, deadline: Option<int>, raised: int, backers: int)

  datatype Tier = Tier(campaign: nat, minAmount: int, limit: Option<int>, claimed: int)

  /** A tier is sold out once its claimed count has reached its limit. */
  predicate SoldOut(t: Tier) {
    t.limit.Some? && t.claimed >= t.limit.value
  }

  datatype RefundReason = AmountMismatch | SoldOutWhilePaying

  datatype Pledge = Pledge(campaign: nat, backer: nat, tier: Option<nat>, amount: int, status: Status,
                           orderId: string, paymentId: Option<string>, reason: Option<RefundReason>)

  datatype EventKind = PaymentCaptured | PaymentFailed | OtherEvent

  datatype PaymentEvent = PaymentEvent(id: string, kind: EventKind, pledge: Option<nat>)

  datatype AccountKind =
    | PlatformEscrow
    | CampaignEscrow
    | CreatorPayable
    | BackerRefundPayable
    | PlatformFeeRevenue
    | GatewayFeeExpense

  datatype Account = Account(kind: AccountKind, owner: Option<nat>)

  datatype TxnKind = PledgeCapture | Refund | Payout | Fee | Adjustment

  datatype LedgerTxn = LedgerTxn(kind: TxnKind, reference: nat)

  datatype Direction = Debit | Credit

  datatype Entry = Entry(txn: nat, account: nat, direction: Direction, amount: int)

  datatype OutboxEvent =
    | PledgeCaptured(pledge: nat, campaign: nat, backer: nat, amount: int)
    | RefundRequired(pledge: nat, campaign: nat, backer: nat, amount: int,
                     paymentId: string, reason: RefundReason)

  /**
   * The pledge tables. A row's identifier is its position, which plays the part of a fresh UUID.
   */
  datatype Tables = Tables(
    campaigns: seq<Campaign>,
    tiers: seq<Tier>,
    pledges: seq<Pledge>,
    events: seq<PaymentEvent>,
    accounts: seq<Account>,
    txns: seq<LedgerTxn>,
    entries: seq<Entry>,
    outbox: seq<OutboxEvent>)

  const EMPTY := Tables([], [], [], [], [], [], [], [])

  const MAX_BIGINT: int := 0x7FFF_FFFF_FFFF_FFFF
  const MAX_INTEGER: int := 0x7FFF_FFFF

  type Int64 = x: int | -0x8000_0000_0000_0000 <= x <= 0x7FFF_FFFF_FFFF_FFFF

  /** The 64-bit sum of two 64-bit numbers, which wraps around instead of overflowing. */
  function WrappingAdd(x: Int64, y: Int64): Int64 {
    if x + y > MAX_BIGINT then x + y - 0x1_0000_0000_0000_0000
    else if x + y < -MAX_BIGINT - 1 then x + y + 0x1_0000_0000_0000_0000
    else x + y
  }

  /** It differs from the true sum by a multiple of 2^64, none when the true sum fits; its range leaves one choice. */
  lemma {:induction false} WrappingAddWraps(x: Int64, y: Int64)
    ensures WrappingAdd(x, y) - (x + y) in {-0x1_0000_0000_0000_0000, 0, 0x1_0000_0000_0000_0000}
    ensures -0x8000_0000_0000_0000 <= x + y <= 0x7FFF_FFFF_FFFF_FFFF <==> WrappingAdd(x, y) == x + y
  {
    var sum: int := x + y;
    assert sum == x + y;
  }

  /** The table's edges, one by one. */
  lemma {:induction false} TableEdges(from: Status, to: Status)
    ensures Allowed(from, to) <==>
              (from, to) in {(Created, Authorized), (Created, Captured), (Created, Failed), (Created, RefundPending),
                             (Authorized, Captured), (Authorized, Failed), (Failed, Captured),
                             (Captured, RefundPending), (Captured, Settled),
                             (RefundPending, Refunded), (RefundPending, RefundFailed)}
  {
  }

  /** A capture is still possible exactly for the pledges without one; counted and held ones stay what they are. */
  lemma {:induction false} BookedHasNoCaptureAhead(s: Status)
    ensures Booked(s) <==> !Allowed(s, Captured)
    ensures !(Counted(s) && Held(s))
    ensures forall to: Status | Allowed(s, to) :: Held(s) ==> Held(to)
    ensures forall to: Status | Allowed(s, to) && Counted(s) :: to == Settled || to == RefundPending
    ensures Counted(Settled)
  {
    assert Allowed(RefundPending, Refunded) && Allowed(RefundPending, RefundFailed);
  }
}
