/** How rewriting or adding one pledge row moves the totals, backers and claims derived from pledges. */
module DomainProofs {
  import opened Results
  import opened PledgeModel
  import opened PledgeQueries
  import opened PledgeInvariant
  import opened Sums

  /** The new row counts toward the same totals as the old one. */
  predicate SameStanding(p: Pledge, q: Pledge) {
    && p.campaign == q.campaign && p.backer == q.backer && p.tier == q.tier && p.amount == q.amount
    && Counted(p.status) == Counted(q.status)
  }

  lemma {:induction false} InUpdate(pledges: seq<Pledge>, id: nat, q: Pledge)
    requires id < |pledges|
    ensures forall p :: p in pledges[id := q] ==> p == q || p in pledges
    ensures q in pledges[id := q]
    ensures forall p :: p in pledges && p != pledges[id] ==> p in pledges[id := q]
  {
    assert pledges[id := q][id] == q;
    forall p | p in pledges && p != pledges[id] ensures p in pledges[id := q] {
      var i :| 0 <= i < |pledges| && pledges[i] == p;
      assert pledges[id := q][i] == p;
    }
  }

  lemma {:induction false} BackersSame(pledges: seq<Pledge>, id: nat, q: Pledge, c: nat)
    requires id < |pledges| && SameStanding(pledges[id], q)
    ensures Backers(pledges[id := q], c) == Backers(pledges, c)
  {
    InUpdate(pledges, id, q);
    assert pledges[id] in pledges;
    var after := pledges[id := q];
    forall b | b in Backers(pledges, c) ensures b in Backers(after, c) {
      var p :| p in pledges && p.campaign == c && Counted(p.status) && p.backer == b;
      var s := if p == pledges[id] then q else p;
      assert s in after && s.campaign == c && Counted(s.status) && s.backer == b;
    }
    forall b | b in Backers(after, c) ensures b in Backers(pledges, c) {
      var p :| p in after && p.campaign == c && Counted(p.status) && p.backer == b;
      var s := if p == q then pledges[id] else p;
      assert s in pledges && s.campaign == c && Counted(s.status) && s.backer == b;
    }
  }

  /** A status change that moves no money, or an attached order id, keeps every derived count. */
  lemma {:induction false} NeutralUpdate(campaigns: seq<Campaign>, tiers: seq<Tier>, pledges: seq<Pledge>, id: nat,
                                         q: Pledge)
    requires id < |pledges| && SameStanding(pledges[id], q)
    requires PledgeRefs(campaigns, tiers, pledges)
    requires RaisedMatches(campaigns, pledges) && BackersMatch(campaigns, pledges) && ClaimsMatch(tiers, pledges)
    ensures PledgeRefs(campaigns, tiers, pledges[id := q])
    ensures RaisedMatches(campaigns, pledges[id := q])
    ensures BackersMatch(campaigns, pledges[id := q])
    ensures ClaimsMatch(tiers, pledges[id := q])
  {
    forall c: nat ensures Sum(pledges[id := q], Raising(c)) == Sum(pledges, Raising(c)) {
      SumUpdate(pledges, id, q, Raising(c));
    }
    forall c: nat ensures Backers(pledges[id := q], c) == Backers(pledges, c) {
      BackersSame(pledges, id, q, c);
    }
    forall r: nat ensures Sum(pledges[id := q], Claiming(r)) == Sum(pledges, Claiming(r)) {
      SumUpdate(pledges, id, q, Claiming(r));
    }
  }

  /** A pledge that counts for nothing yet can be added without moving any derived count. */
  lemma {:induction false} AddUncounted(campaigns: seq<Campaign>, tiers: seq<Tier>, pledges: seq<Pledge>, q: Pledge)
    requires !Counted(q.status)
    requires RaisedMatches(campaigns, pledges) && BackersMatch(campaigns, pledges) && ClaimsMatch(tiers, pledges)
    ensures RaisedMatches(campaigns, pledges + [q])
    ensures BackersMatch(campaigns, pledges + [q])
    ensures ClaimsMatch(tiers, pledges + [q])
  {
    forall c: nat ensures Sum(pledges + [q], Raising(c)) == Sum(pledges, Raising(c)) {
      SumAppend(pledges, q, Raising(c));
    }
    forall c: nat ensures Backers(pledges + [q], c) == Backers(pledges, c) {
    }
    forall r: nat ensures Sum(pledges + [q], Claiming(r)) == Sum(pledges, Claiming(r)) {
      SumAppend(pledges, q, Claiming(r));
    }
  }

  /** Counting one more pledge adds its backer to its campaign's backers and to no other's. */
  lemma {:induction false} BackersGrow(pledges: seq<Pledge>, id: nat, q: Pledge, c: nat)
    requires id < |pledges| && !Counted(pledges[id].status) && Counted(q.status)
    ensures Backers(pledges[id := q], c) == Backers(pledges, c) + if c == q.campaign then {q.backer} else {}
  {
    InUpdate(pledges, id, q);
  }

  /** The EXISTS subquery asks whether the backer is among the campaign's backers already. */
  lemma {:induction false} PriorMeansBacker(pledges: seq<Pledge>, id: nat, q: Pledge)
    requires id < |pledges| && !Counted(pledges[id].status)
    ensures PriorPledge(pledges[id := q], id, q.campaign, q.backer) <==> q.backer in Backers(pledges, q.campaign)
  {
    var after := pledges[id := q];
    if PriorPledge(after, id, q.campaign, q.backer) {
      var i :| 0 <= i < |after| && i != id && after[i].campaign == q.campaign
               && after[i].backer == q.backer && Counted(after[i].status);
      assert pledges[i] in pledges;
    }
    if q.backer in Backers(pledges, q.campaign) {
      var p :| p in pledges && p.campaign == q.campaign && Counted(p.status) && p.backer == q.backer;
      var i :| 0 <= i < |pledges| && pledges[i] == p;
      assert after[i] == p;
    }
  }

  lemma {:induction false} RaisedAfter(campaigns: seq<Campaign>, pledges: seq<Pledge>, id: nat, q: Pledge, c2: Campaign)
    requires id < |pledges| && !Counted(pledges[id].status) && Counted(q.status) && q.campaign < |campaigns|
    requires RaisedMatches(campaigns, pledges)
    requires c2.raised == campaigns[q.campaign].raised + q.amount
    ensures RaisedMatches(campaigns[q.campaign := c2], pledges[id := q])
  {
    forall c: nat ensures Sum(pledges[id := q], Raising(c))
                          == Sum(pledges, Raising(c)) + if c == q.campaign then q.amount else 0
    {
      SumUpdate(pledges, id, q, Raising(c));
    }
  }

  lemma {:induction false} BackersAfter(campaigns: seq<Campaign>, pledges: seq<Pledge>, id: nat, q: Pledge,
                                        c2: Campaign)
    requires id < |pledges| && !Counted(pledges[id].status) && Counted(q.status) && q.campaign < |campaigns|
    requires BackersMatch(campaigns, pledges)
    requires c2.backers == campaigns[q.campaign].backers
                           + if PriorPledge(pledges[id := q], id, q.campaign, q.backer) then 0 else 1
    ensures BackersMatch(campaigns[q.campaign := c2], pledges[id := q])
  {
    PriorMeansBacker(pledges, id, q);
    var campaigns', pledges' := campaigns[q.campaign := c2], pledges[id := q];
    forall c: nat | c < |campaigns'| ensures campaigns'[c].backers == |Backers(pledges', c)| {
      BackersGrow(pledges, id, q, c);
      if c != q.campaign {
        assert Backers(pledges', c) == Backers(pledges, c);
        assert campaigns'[c] == campaigns[c];
      } else {
        OneMore(Backers(pledges, c), q.backer);
      }
    }
  }

  lemma {:induction false} OneMore(s: set<nat>, x: nat)
    ensures |s + {x}| == |s| + if x in s then 0 else 1
  {
    if x in s {
      assert s + {x} == s;
    }
  }

  /** The statement that adds an amount and 0 or 1 backers restores both matches after a capture. */
  lemma {:induction false} RaisedAfterCount(campaigns: seq<Campaign>, pledges: seq<Pledge>, id: nat, q: Pledge,
                                            c2: Campaign)
    requires id < |pledges| && !Counted(pledges[id].status) && Counted(q.status)
    requires q.campaign < |campaigns|
    requires RaisedMatches(campaigns, pledges) && BackersMatch(campaigns, pledges)
    requires c2.raised == campaigns[q.campaign].raised + q.amount
    requires c2.backers == campaigns[q.campaign].backers
                           + if PriorPledge(pledges[id := q], id, q.campaign, q.backer) then 0 else 1
    ensures RaisedMatches(campaigns[q.campaign := c2], pledges[id := q])
    ensures BackersMatch(campaigns[q.campaign := c2], pledges[id := q])
  {
    RaisedAfter(campaigns, pledges, id, q, c2);
    BackersAfter(campaigns, pledges, id, q, c2);
  }

  lemma {:induction false} ClaimsAfterCount(tiers: seq<Tier>, pledges: seq<Pledge>, id: nat, q: Pledge)
    requires id < |pledges| && !Counted(pledges[id].status) && Counted(q.status)
    requires ClaimsMatch(tiers, pledges)
    requires q.tier.Some? ==> q.tier.value < |tiers| && !SoldOut(tiers[q.tier.value])
    ensures ClaimsMatch(
              if q.tier.Some? then tiers[q.tier.value := tiers[q.tier.value].(claimed := tiers[q.tier.value].claimed + 1)]
              else tiers,
              pledges[id := q])
  {
    forall r: nat ensures Sum(pledges[id := q], Claiming(r))
                          == Sum(pledges, Claiming(r)) + if q.tier == Some(r) then 1 else 0
    {
      SumUpdate(pledges, id, q, Claiming(r));
    }
  }

  /** A payment id no other pledge carries can be written to a row. */
  lemma {:induction false} KeysAfterPayment(pledges: seq<Pledge>, id: nat, q: Pledge, paymentId: string)
    requires KeysUnique(pledges) && id < |pledges|
    requires q.orderId == pledges[id].orderId && q.paymentId == Some(paymentId)
    requires !PaymentTaken(pledges, id, paymentId)
    ensures KeysUnique(pledges[id := q])
  {
  }
}
