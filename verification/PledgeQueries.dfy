/**
 * What each statement of the pledge repository does to the tables, as a function: the specification
 * the statements of Database are proved against. A statement that violates a constraint fails.
 */
module PledgeQueries {
  import opened Results
  import opened PledgeModel
  import opened Sums

  function FindOrder(pledges: seq<Pledge>, orderId: string): (r: Option<nat>)
    ensures r.Some? ==> r.value < |pledges| && pledges[r.value].orderId == orderId
    ensures r.None? ==> forall i :: 0 <= i < |pledges| ==> pledges[i].orderId != orderId
  {
    var last := |pledges| - 1;
    if pledges == [] then None
    else if pledges[last].orderId == orderId then Some(last)
    else FindOrder(pledges[..last], orderId)
  }

  function GetPledge(t: Tables, id: nat): Result<Pledge> {
    if id < |t.pledges| then Ok(t.pledges[id]) else Err(NoRows)
  }

  function GetPledgeByOrder(t: Tables, orderId: string): Result<nat> {
    match FindOrder(t.pledges, orderId)
    case Some(id) => Ok(id)
    case None => Err(NoRows)
  }

  /** A campaign without a deadline cannot be scanned into the service's struct. */
  function GetCampaign(t: Tables, id: nat): Result<Campaign> {
    if id < |t.campaigns| && t.campaigns[id].deadline.Some? then Ok(t.campaigns[id]) else Err(NoRows)
  }

  function GetTier(t: Tables, id: nat): Result<Tier> {
    if id < |t.tiers| then Ok(t.tiers[id]) else Err(NoRows)
  }

  function InsertPledge(t: Tables, p: Pledge): Result<Tables> {
    if p.amount <= 0 then Err(CheckViolation)
    else if FindOrder(t.pledges, p.orderId).Some? then Err(UniqueViolation)
    else Ok(t.(pledges := t.pledges + [p]))
  }

  /** Some pledge other than this one already carries the order id. */
  predicate OrderTaken(pledges: seq<Pledge>, id: nat, orderId: string) {
    exists i | 0 <= i < |pledges| && i != id :: pledges[i].orderId == orderId
  }

  predicate PaymentTaken(pledges: seq<Pledge>, id: nat, paymentId: string) {
    exists i | 0 <= i < |pledges| && i != id :: pledges[i].paymentId == Some(paymentId)
  }

  function AttachOrder(t: Tables, id: nat, orderId: string): Result<Tables> {
    if id >= |t.pledges| then Ok(t)
    else if OrderTaken(t.pledges, id, orderId) then Err(UniqueViolation)
    else Ok(t.(pledges := t.pledges[id := t.pledges[id].(orderId := orderId)]))
  }

  function MarkCaptured(t: Tables, id: nat, paymentId: string): Result<Tables> {
    if id >= |t.pledges| then Ok(t)
    else if PaymentTaken(t.pledges, id, paymentId) then Err(UniqueViolation)
    else Ok(t.(pledges := t.pledges[id := t.pledges[id].(status := Captured, paymentId := Some(paymentId))]))
  }

  function MarkRefundPending(t: Tables, id: nat, paymentId: string, reason: RefundReason): Result<Tables> {
    if id >= |t.pledges| then Ok(t)
    else if PaymentTaken(t.pledges, id, paymentId) then Err(UniqueViolation)
    else Ok(t.(pledges := t.pledges[id := t.pledges[id].(status := RefundPending,
                                                         paymentId := Some(paymentId),
                                                         reason := Some(reason))]))
  }

  function SetStatus(t: Tables, id: nat, s: Status): Tables {
    if id >= |t.pledges| then t
    else t.(pledges := t.pledges[id := t.pledges[id].(status := s)])
  }

  /** The EXISTS subquery: another counted pledge of the same backer in the same campaign. */
  predicate PriorPledge(pledges: seq<Pledge>, id: nat, campaign: nat, backer: nat) {
    exists i | 0 <= i < |pledges| && i != id ::
      pledges[i].campaign == campaign && pledges[i].backer == backer && Counted(pledges[i].status)
  }

  function IncrementRaised(t: Tables, id: nat, p: Pledge): Result<Tables> {
    if p.campaign >= |t.campaigns| then Ok(t)
    else
      var c := t.campaigns[p.campaign];
      var more := if PriorPledge(t.pledges, id, p.campaign, p.backer) then 0 else 1;
      if c.raised + p.amount > MAX_BIGINT || c.backers + more > MAX_INTEGER then Err(OutOfRange)
      else Ok(t.(campaigns := t.campaigns[p.campaign := c.(raised := c.raised + p.amount,
                                                           backers := c.backers + more)]))
  }

  function IncrementClaimed(t: Tables, id: nat): Result<Tables> {
    if id >= |t.tiers| then Ok(t)
    else
      var r := t.tiers[id];
      if r.claimed + 1 > MAX_INTEGER then Err(OutOfRange)
      else if r.limit.Some? && r.claimed + 1 > r.limit.value then Err(CheckViolation)
      else Ok(t.(tiers := t.tiers[id := r.(claimed := r.claimed + 1)]))
  }

  predicate EventRecorded(events: seq<PaymentEvent>, id: string) {
    exists i | 0 <= i < |events| :: events[i].id == id
  }

  function InsertEvent(t: Tables, e: PaymentEvent): Result<Tables> {
    if EventRecorded(t.events, e.id) then Err(DuplicateEvent)
    else if e.pledge.Some? && e.pledge.value >= |t.pledges| then Err(ForeignKeyViolation)
    else Ok(t.(events := t.events + [e]))
  }

  /** Adds the account unless the (kind, owner) pair is there: the upsert of GetOrCreateAccount. */
  function EnsureAccount(accounts: seq<Account>, a: Account): seq<Account> {
    if a in accounts then accounts else accounts + [a]
  }

  function AccountId(accounts: seq<Account>, a: Account): (r: nat)
    requires a in accounts
    ensures r < |accounts| && accounts[r] == a
  {
    var last := |accounts| - 1;
    if accounts[last] == a then last else AccountId(accounts[..last], a)
  }

  function InsertEntries(entries: seq<Entry>, rows: seq<Entry>): Result<seq<Entry>> {
    if exists e | e in rows :: e.amount <= 0 then Err(CheckViolation) else Ok(entries + rows)
  }

  function InsertOutbox(t: Tables, e: OutboxEvent): Tables {
    t.(outbox := t.outbox + [e])
  }

  /** Weight of an entry in a balance: debits count up, credits down. */
  function Signed(e: Entry): int {
    if e.direction == Debit then e.amount else -e.amount
  }

  function OfTxn(txn: nat): Entry -> int {
    (e: Entry) => if e.txn == txn then Signed(e) else 0
  }

  /** What the constraint trigger sums for one transaction. */
  function Imbalance(entries: seq<Entry>, txn: nat): int {
    Sum(entries, OfTxn(txn))
  }

  /** No ledger transaction trips the deferred balance trigger. */
  predicate AllBalanced(txns: seq<LedgerTxn>, entries: seq<Entry>) {
    forall k: nat | k < |txns| :: Imbalance(entries, k) == 0
  }
}
