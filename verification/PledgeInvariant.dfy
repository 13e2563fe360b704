/**
 * What every reachable state of the pledge tables satisfies. Each conjunct names only the tables it
 * is about, so a request that leaves those tables alone keeps it for free.
 */
module PledgeInvariant {
  import opened Results
  import opened PledgeModel
  import opened PledgeQueries
  import opened Sums

  // ---------------------------------------------------------------- pledges against campaigns and tiers

  ghost predicate PledgeRefs(campaigns: seq<Campaign>, tiers: seq<Tier>, pledges: seq<Pledge>) {
    forall i: nat | i < |pledges| ::
      && pledges[i].campaign < |campaigns|
      && pledges[i].amount > 0
      && (pledges[i].tier.Some? ==>
            pledges[i].tier.value < |tiers| && tiers[pledges[i].tier.value].campaign == pledges[i].campaign)
  }

  /** Order ids and payment ids belong to at most one pledge each, and captured money names its payment. */
  ghost predicate KeysUnique(pledges: seq<Pledge>) {
    && (forall i: nat, j: nat | i < j < |pledges| :: pledges[i].orderId != pledges[j].orderId)
    && (forall i: nat, j: nat | i < j < |pledges| && pledges[i].paymentId.Some? ::
          pledges[i].paymentId != pledges[j].paymentId)
    && (forall i: nat | i < |pledges| && Booked(pledges[i].status) :: pledges[i].paymentId.Some?)
  }

  /** Weight of a pledge in its campaign's total. */
  function Raising(campaign: nat): Pledge -> int {
    (p: Pledge) => if p.campaign == campaign && Counted(p.status) then p.amount else 0
  }

  ghost predicate RaisedMatches(campaigns: seq<Campaign>, pledges: seq<Pledge>) {
    forall c: nat | c < |campaigns| :: campaigns[c].raised == Sum(pledges, Raising(c))
  }

  function Backers(pledges: seq<Pledge>, campaign: nat): set<nat> {
    set p | p in pledges && p.campaign == campaign && Counted(p.status) :: p.backer
  }

  ghost predicate BackersMatch(campaigns: seq<Campaign>, pledges: seq<Pledge>) {
    forall c: nat | c < |campaigns| :: campaigns[c].backers == |Backers(pledges, c)|
  }

  function Claiming(tier: nat): Pledge -> int {
    (p: Pledge) => if p.tier == Some(tier) && Counted(p.status) then 1 else 0
  }

  ghost predicate ClaimsMatch(tiers: seq<Tier>, pledges: seq<Pledge>) {
    forall r: nat | r < |tiers| ::
      && tiers[r].claimed == Sum(pledges, Claiming(r))
      && (tiers[r].limit.Some? ==> tiers[r].claimed <= tiers[r].limit.value)
  }

  // ---------------------------------------------------------------- the ledger

  ghost predicate LedgerRefs(accounts: seq<Account>, txns: seq<LedgerTxn>, entries: seq<Entry>) {
    && (forall i: nat, j: nat | i < j < |accounts| :: accounts[i] != accounts[j])
    && (forall i: nat, j: nat | i < j < |txns| :: txns[i] != txns[j])
    && (forall e | e in entries :: e.account < |accounts| && e.txn < |txns| && e.amount > 0)
  }

  function OnAccount(id: nat): Entry -> int {
    (e: Entry) => if e.account == id then Signed(e) else 0
  }

  /** The ledger_balances view: debits less credits, zero for an account that does not exist yet. */
  function Balance(accounts: seq<Account>, entries: seq<Entry>, a: Account): int {
    if a in accounts then Sum(entries, OnAccount(AccountId(accounts, a))) else 0
  }

  function CreditBalance(accounts: seq<Account>, entries: seq<Entry>, a: Account): int {
    -Balance(accounts, entries, a)
  }

  /** A PLEDGE_CAPTURE transaction exists exactly for the booked pledges. */
  ghost predicate BookedOnce(pledges: seq<Pledge>, txns: seq<LedgerTxn>) {
    forall i: nat :: (LedgerTxn(PledgeCapture, i) in txns) == (i < |pledges| && Booked(pledges[i].status))
  }

  /** Each campaign's escrow holds exactly what the campaign has raised. */
  ghost predicate EscrowMatches(campaigns: seq<Campaign>, accounts: seq<Account>, entries: seq<Entry>) {
    forall c: nat :: CreditBalance(accounts, entries, Account(CampaignEscrow, Some(c)))
                     == if c < |campaigns| then campaigns[c].raised else 0
  }

  // ---------------------------------------------------------------- the outbox

  function Announcing(pledge: nat): OutboxEvent -> int {
    (e: OutboxEvent) => if e.PledgeCaptured? && e.pledge == pledge then 1 else 0
  }

  function Refunding(pledge: nat): OutboxEvent -> int {
    (e: OutboxEvent) => if e.RefundRequired? && e.pledge == pledge then 1 else 0
  }

  /** One pledge.captured row for a counted pledge, one pledge.refund_required row for a held one. */
  ghost predicate Announced(pledges: seq<Pledge>, outbox: seq<OutboxEvent>) {
    && (forall i: nat :: Sum(outbox, Announcing(i)) == if i < |pledges| && Counted(pledges[i].status) then 1 else 0)
    && (forall i: nat :: Sum(outbox, Refunding(i)) == if i < |pledges| && Held(pledges[i].status) then 1 else 0)
    && (forall e | e in outbox && e.pledge < |pledges| ::
          && e.campaign == pledges[e.pledge].campaign
          && e.backer == pledges[e.pledge].backer
          && (e.PledgeCaptured? ==> e.amount == pledges[e.pledge].amount)
          && (e.RefundRequired? ==> Some(e.paymentId) == pledges[e.pledge].paymentId))
  }

  function Owing(backer: nat): OutboxEvent -> int {
    (e: OutboxEvent) => if e.RefundRequired? && e.backer == backer then e.amount else 0
  }

  /** What the books owe a backer is what the refund events ask for. */
  ghost predicate RefundsMatch(accounts: seq<Account>, entries: seq<Entry>, outbox: seq<OutboxEvent>) {
    forall b: nat :: CreditBalance(accounts, entries, Account(BackerRefundPayable, Some(b))) == Sum(outbox, Owing(b))
  }

  /** What the provider captured, counted or held. */
  function Paid(): OutboxEvent -> int {
    (e: OutboxEvent) => e.amount
  }

  /** Platform escrow is every booked capture less the gateway's fees. */
  ghost predicate PlatformMatches(accounts: seq<Account>, entries: seq<Entry>, outbox: seq<OutboxEvent>) {
    Balance(accounts, entries, Account(PlatformEscrow, None))
    == Sum(outbox, Paid()) - Balance(accounts, entries, Account(GatewayFeeExpense, None))
  }

  ghost predicate EventsUnique(events: seq<PaymentEvent>) {
    forall i: nat, j: nat | i < j < |events| :: events[i].id != events[j].id
  }

  ghost predicate DomainInv(t: Tables) {
    && PledgeRefs(t.campaigns, t.tiers, t.pledges)
    && KeysUnique(t.pledges)
    && RaisedMatches(t.campaigns, t.pledges)
    && BackersMatch(t.campaigns, t.pledges)
    && ClaimsMatch(t.tiers, t.pledges)
    && EventsUnique(t.events)
  }

  ghost predicate LedgerInv(t: Tables) {
    && LedgerRefs(t.accounts, t.txns, t.entries)
    && AllBalanced(t.txns, t.entries)
    && BookedOnce(t.pledges, t.txns)
    && EscrowMatches(t.campaigns, t.accounts, t.entries)
    && Announced(t.pledges, t.outbox)
    && RefundsMatch(t.accounts, t.entries, t.outbox)
    && PlatformMatches(t.accounts, t.entries, t.outbox)
  }

  ghost predicate Inv(t: Tables) {
    DomainInv(t) && LedgerInv(t)
  }

  lemma {:induction false} EmptySatisfiesInv()
    ensures Inv(EMPTY)
  {
  }
}
