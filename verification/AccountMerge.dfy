/**
 * The data migration that folds duplicate ledger accounts, (kind, owner, currency) for (kind, owner,
 * currency), into the oldest of each: entries move first, then the other accounts go, then the constraint.
 */
module AccountMerge {
  import opened Results
  import opened PledgeModel
  import opened PledgeQueries
  import opened PledgeInvariant
  import opened Sums

  datatype Group = Group(kind: AccountKind, owner: Option<nat>, currency: string)

  datatype AccountRow = AccountRow(id: nat, group: Group, createdAt: int)

  /** The window's order: by time of creation, then by id. */
  predicate Before(a: AccountRow, b: AccountRow) {
    a.createdAt < b.createdAt || (a.createdAt == b.createdAt && a.id < b.id)
  }

  /** The first account of a group; owners that are both missing are the same owner. */
  function FirstOf(accounts: seq<AccountRow>, g: Group): Option<AccountRow> {
    if accounts == [] then None
    else
      var best, last := FirstOf(accounts[..|accounts| - 1], g), accounts[|accounts| - 1];
      if last.group == g && (best.None? || Before(last, best.value)) then Some(last) else best
  }

  /** keep_id of the account with this id. */
  function KeepId(accounts: seq<AccountRow>, id: nat): nat {
    var a := Find(accounts, id);
    if a.None? then id
    else
      var k := FirstOf(accounts, a.value.group);
      if k.None? then id else k.value.id
  }

  function Find(accounts: seq<AccountRow>, id: nat): Option<AccountRow> {
    if accounts == [] then None
    else if accounts[|accounts| - 1].id == id then Some(accounts[|accounts| - 1])
    else Find(accounts[..|accounts| - 1], id)
  }

  /** The UPDATE: every entry of a duplicate moves to the account that is kept. */
  function Repointed(accounts: seq<AccountRow>, entries: seq<Entry>): (r: seq<Entry>)
    ensures |r| == |entries|
    ensures forall i | 0 <= i < |r| :: r[i] == entries[i].(account := KeepId(accounts, entries[i].account))
  {
    if entries == [] then []
    else
      var last := entries[|entries| - 1];
      Repointed(accounts, entries[..|entries| - 1]) + [last.(account := KeepId(accounts, last.account))]
  }

  /** The DELETE: the first n accounts less the duplicates. */
  function KeptOf(accounts: seq<AccountRow>, n: nat): seq<AccountRow>
    requires n <= |accounts|
  {
    if n == 0 then []
    else if KeepId(accounts, accounts[n - 1].id) == accounts[n - 1].id then KeptOf(accounts, n - 1) + [accounts[n - 1]]
    else KeptOf(accounts, n - 1)
  }

  function Kept(accounts: seq<AccountRow>): seq<AccountRow> {
    KeptOf(accounts, |accounts|)
  }

  /** The primary key of the accounts and the foreign key of the entries. */
  ghost predicate KeysOk(accounts: seq<AccountRow>, entries: seq<Entry>) {
    IdsUnique(accounts) && forall i | 0 <= i < |entries| :: HasAccount(accounts, entries[i].account)
  }

  ghost predicate IdsUnique(accounts: seq<AccountRow>) {
    forall i, j | 0 <= i < j < |accounts| :: accounts[i].id != accounts[j].id
  }

  predicate HasAccount(accounts: seq<AccountRow>, id: nat) {
    exists i | 0 <= i < |accounts| :: accounts[i].id == id
  }

  /** UNIQUE NULLS NOT DISTINCT (kind, owner_id, currency). */
  predicate GroupsUnique(accounts: seq<AccountRow>) {
    forall i, j | 0 <= i < j < |accounts| :: accounts[i].group != accounts[j].group
  }

  class LedgerTables {
    var accounts: seq<AccountRow>
    var entries: seq<Entry>

    constructor (accounts: seq<AccountRow>, entries: seq<Entry>)
      ensures this.accounts == accounts && this.entries == entries
    {
      this.accounts, this.entries := accounts, entries;
    }

    method MoveEntries()
      modifies this`entries
      ensures entries == Repointed(accounts, old(entries))
    {
      ghost var before, target := entries, Repointed(accounts, entries);
      var i := 0;
      while i < |entries|
        invariant 0 <= i <= |entries| == |before|
        invariant forall k | 0 <= k < i :: entries[k] == target[k]
        invariant forall k | i <= k < |entries| :: entries[k] == before[k]
      {
        var e := entries[i];
        var keep := KeepId(accounts, e.account);
        if keep != e.account {
          entries := entries[i := e.(account := keep)];
        }
        i := i + 1;
      }
      assert entries == target;
    }

    method DeleteDuplicates()
      modifies this`accounts
      ensures accounts == Kept(old(accounts))
    {
      var all := accounts;
      var left: seq<AccountRow> := [];
      var i := 0;
      while i < |all|
        invariant 0 <= i <= |all|
        invariant left == KeptOf(all, i)
      {
        if KeepId(all, all[i].id) == all[i].id {
          left := left + [all[i]];
        }
        i := i + 1;
      }
      accounts := left;
    }

    /** The whole script: the constraint it ends with can always be added. */
    method Merge() returns (ok: bool)
      requires KeysOk(accounts, entries)
      modifies this
      ensures ok
      ensures entries == Repointed(old(accounts), old(entries)) && accounts == Kept(old(accounts))
    {
      MoveEntries();
      DeleteDuplicates();
      OnePerGroup(old(accounts));
      ok := GroupsUnique(accounts);
    }
  }

  // ---------------------------------------------------------------- which account is kept

  lemma {:induction false} FirstOfIs(accounts: seq<AccountRow>, g: Group)
    ensures FirstOf(accounts, g).None? <==> forall i | 0 <= i < |accounts| :: accounts[i].group != g
    ensures FirstOf(accounts, g).Some? ==>
              && FirstOf(accounts, g).value in accounts && FirstOf(accounts, g).value.group == g
              && forall i | 0 <= i < |accounts| && accounts[i].group == g ::
                   !Before(accounts[i], FirstOf(accounts, g).value)
  {
    if accounts != [] {
      FirstOfIs(accounts[..|accounts| - 1], g);
    }
  }

  lemma {:induction false} FindIs(accounts: seq<AccountRow>, i: nat)
    requires IdsUnique(accounts) && i < |accounts|
    ensures Find(accounts, accounts[i].id) == Some(accounts[i])
  {
    if i < |accounts| - 1 {
      FindIs(accounts[..|accounts| - 1], i);
    }
  }

  /** An account's kept account is the first of its group, and keeps itself. */
  lemma {:induction false} KeepIdIs(accounts: seq<AccountRow>, i: nat)
    requires IdsUnique(accounts) && i < |accounts|
    ensures FirstOf(accounts, accounts[i].group).Some?
    ensures KeepId(accounts, accounts[i].id) == FirstOf(accounts, accounts[i].group).value.id
    ensures KeepId(accounts, KeepId(accounts, accounts[i].id)) == KeepId(accounts, accounts[i].id)
  {
    FindIs(accounts, i);
    FirstOfIs(accounts, accounts[i].group);
    var k := FirstOf(accounts, accounts[i].group).value;
    var j :| 0 <= j < |accounts| && accounts[j] == k;
    FindIs(accounts, j);
  }

  lemma {:induction false} KeptAre(accounts: seq<AccountRow>, n: nat)
    requires n <= |accounts|
    ensures forall a :: a in KeptOf(accounts, n) <==> a in accounts[..n] && KeepId(accounts, a.id) == a.id
  {
    if n > 0 {
      KeptAre(accounts, n - 1);
      assert accounts[..n] == accounts[..n - 1] + [accounts[n - 1]];
    }
  }

  /** The accounts left are exactly the first ones of their groups. */
  lemma {:induction false} KeptIsFirsts(accounts: seq<AccountRow>, a: AccountRow)
    requires IdsUnique(accounts)
    ensures a in Kept(accounts) <==> FirstOf(accounts, a.group) == Some(a)
  {
    KeptAre(accounts, |accounts|);
    assert accounts[..|accounts|] == accounts;
    FirstOfIs(accounts, a.group);
    if a in accounts {
      var i :| 0 <= i < |accounts| && accounts[i] == a;
      KeepIdIs(accounts, i);
      var k := FirstOf(accounts, a.group).value;
      var j :| 0 <= j < |accounts| && accounts[j] == k;
      assert a.id == k.id ==> i == j;
    }
  }

  /** An account is left exactly when no other of its group was created before it, nor at its time with a lower id. */
  lemma {:induction false} OldestIsKept(accounts: seq<AccountRow>, a: AccountRow)
    requires IdsUnique(accounts)
    ensures a in Kept(accounts) <==>
              a in accounts && forall b | b in accounts && b.group == a.group ::
                a.createdAt < b.createdAt || (a.createdAt == b.createdAt && a.id <= b.id)
  {
    KeptIsFirsts(accounts, a);
    FirstOfIs(accounts, a.group);
    if a in accounts && FirstOf(accounts, a.group).Some? {
      var k := FirstOf(accounts, a.group).value;
      var i :| 0 <= i < |accounts| && accounts[i] == a;
      var j :| 0 <= j < |accounts| && accounts[j] == k;
      assert a.id == k.id ==> i == j;
    }
  }

  lemma {:induction false} KeptSorted(accounts: seq<AccountRow>, n: nat)
    requires IdsUnique(accounts) && n <= |accounts|
    ensures IdsUnique(KeptOf(accounts, n))
  {
    if n > 0 {
      KeptSorted(accounts, n - 1);
      KeptAre(accounts, n - 1);
      var left := KeptOf(accounts, n - 1);
      forall i | 0 <= i < |left| ensures left[i].id != accounts[n - 1].id {
        assert left[i] in accounts[..n - 1];
      }
    }
  }

  /** One account per group, missing owners counting as equal: the new constraint holds. */
  lemma {:induction false} OnePerGroup(accounts: seq<AccountRow>)
    requires IdsUnique(accounts)
    ensures GroupsUnique(Kept(accounts)) && IdsUnique(Kept(accounts))
  {
    var left := Kept(accounts);
    KeptSorted(accounts, |accounts|);
    forall i, j | 0 <= i < j < |left| ensures left[i].group != left[j].group {
      KeptIsFirsts(accounts, left[i]);
      KeptIsFirsts(accounts, left[j]);
    }
  }

  // ---------------------------------------------------------------- what the ledger means

  lemma {:induction false} SumSameWeights<T>(s: seq<T>, r: seq<T>, w: T -> int, v: T -> int)
    requires |s| == |r| && forall i | 0 <= i < |s| :: w(s[i]) == v(r[i])
    ensures Sum(s, w) == Sum(r, v)
  {
    if s != [] {
      SumSameWeights(s[..|s| - 1], r[..|r| - 1], w, v);
    }
  }

  /** Every transaction keeps its imbalance. */
  lemma {:induction false} ImbalanceKept(accounts: seq<AccountRow>, entries: seq<Entry>, txn: nat)
    ensures Imbalance(Repointed(accounts, entries), txn) == Imbalance(entries, txn)
  {
    SumSameWeights(Repointed(accounts, entries), entries, OfTxn(txn), OfTxn(txn));
  }

  /** An account's balance when it is in the group. */
  function InGroup(entries: seq<Entry>, g: Group): AccountRow -> int {
    (a: AccountRow) => if a.group == g then Sum(entries, OnAccount(a.id)) else 0
  }

  function GroupBalance(accounts: seq<AccountRow>, entries: seq<Entry>, g: Group): int {
    Sum(accounts, InGroup(entries, g))
  }

  /** An entry's weight when its account is in the group. */
  function OfGroup(accounts: seq<AccountRow>, g: Group): Entry -> int {
    (e: Entry) =>
      if Find(accounts, e.account).Some? && Find(accounts, e.account).value.group == g then Signed(e) else 0
  }

  function Here(g: Group, e: Entry): AccountRow -> int {
    (a: AccountRow) => if a.group == g && a.id == e.account then Signed(e) else 0
  }

  lemma {:induction false} OneAccount(accounts: seq<AccountRow>, g: Group, e: Entry)
    requires IdsUnique(accounts)
    ensures Sum(accounts, Here(g, e)) == OfGroup(accounts, g)(e)
  {
    if accounts != [] {
      var front, last := accounts[..|accounts| - 1], accounts[|accounts| - 1];
      if last.id == e.account {
        forall a | a in front ensures Here(g, e)(a) == 0 {
          var i :| 0 <= i < |front| && front[i] == a;
          assert accounts[i] == a;
        }
        SumZero(front, Here(g, e));
      } else {
        OneAccount(front, g, e);
      }
    }
  }

  /** A group's total balance, entry by entry instead of account by account. */
  lemma {:induction false} ByEntry(accounts: seq<AccountRow>, entries: seq<Entry>, g: Group)
    requires IdsUnique(accounts)
    ensures GroupBalance(accounts, entries, g) == Sum(entries, OfGroup(accounts, g))
  {
    if entries == [] {
      SumZero(accounts, InGroup(entries, g));
    } else {
      var front, e := entries[..|entries| - 1], entries[|entries| - 1];
      ByEntry(accounts, front, g);
      OneAccount(accounts, g, e);
      SumAdd(accounts, InGroup(front, g), Here(g, e), InGroup(entries, g));
    }
  }

  lemma {:induction false} AccountPlace(accounts: seq<AccountRow>, id: nat) returns (i: nat)
    requires HasAccount(accounts, id)
    ensures i < |accounts| && accounts[i].id == id
  {
    i :| 0 <= i < |accounts| && accounts[i].id == id;
  }

  lemma {:induction false} SameGroupSameKeep(accounts: seq<AccountRow>, id: nat, g: Group)
    requires IdsUnique(accounts) && HasAccount(accounts, id) && FirstOf(accounts, g).Some?
    ensures KeepId(accounts, id) == FirstOf(accounts, g).value.id <==>
              Find(accounts, id).Some? && Find(accounts, id).value.group == g
  {
    var i := AccountPlace(accounts, id);
    FindIs(accounts, i);
    KeepIdIs(accounts, i);
    FirstOfIs(accounts, g);
    FirstOfIs(accounts, accounts[i].group);
    var k, mine := FirstOf(accounts, g).value, FirstOf(accounts, accounts[i].group).value;
    var x :| 0 <= x < |accounts| && accounts[x] == k;
    var y :| 0 <= y < |accounts| && accounts[y] == mine;
    assert k.id == mine.id ==> x == y;
  }

  /** The account a group keeps ends with the balance all the group's accounts had together. */
  lemma {:induction false} GroupBalanceKept(accounts: seq<AccountRow>, entries: seq<Entry>, g: Group)
    requires KeysOk(accounts, entries) && FirstOf(accounts, g).Some?
    ensures FirstOf(accounts, g).value in Kept(accounts)
    ensures Sum(Repointed(accounts, entries), OnAccount(FirstOf(accounts, g).value.id))
            == GroupBalance(accounts, entries, g)
  {
    var k := FirstOf(accounts, g).value;
    FirstOfIs(accounts, g);
    KeptIsFirsts(accounts, k);
    ByEntry(accounts, entries, g);
    var moved := Repointed(accounts, entries);
    forall i | 0 <= i < |entries| ensures OnAccount(k.id)(moved[i]) == OfGroup(accounts, g)(entries[i]) {
      SameGroupSameKeep(accounts, entries[i].account, g);
    }
    SumSameWeights(moved, entries, OnAccount(k.id), OfGroup(accounts, g));
  }

  /** No entry refers to a deleted account, and no other part of an entry changes. */
  lemma {:induction false} NothingDangles(accounts: seq<AccountRow>, entries: seq<Entry>)
    requires KeysOk(accounts, entries)
    ensures KeysOk(Kept(accounts), Repointed(accounts, entries))
    ensures |Repointed(accounts, entries)| == |entries|
    ensures forall i | 0 <= i < |entries| ::
              Repointed(accounts, entries)[i].(account := entries[i].account) == entries[i]
  {
    OnePerGroup(accounts);
    var moved, left := Repointed(accounts, entries), Kept(accounts);
    forall i | 0 <= i < |moved| ensures HasAccount(left, moved[i].account) {
      var j := AccountPlace(accounts, entries[i].account);
      KeepIdIs(accounts, j);
      FirstOfIs(accounts, accounts[j].group);
      var k := FirstOf(accounts, accounts[j].group).value;
      KeptIsFirsts(accounts, k);
      assert k in left;
    }
  }

  /** Nothing is folded away for good: each group that had an account still has one. */
  lemma {:induction false} GroupsSurvive(accounts: seq<AccountRow>, g: Group)
    requires IdsUnique(accounts)
    ensures (exists a :: a in accounts && a.group == g) <==> (exists a :: a in Kept(accounts) && a.group == g)
  {
    FirstOfIs(accounts, g);
    KeptAre(accounts, |accounts|);
    assert accounts[..|accounts|] == accounts;
    if FirstOf(accounts, g).Some? {
      KeptIsFirsts(accounts, FirstOf(accounts, g).value);
    }
  }

  lemma {:induction false} KeepTwice(accounts: seq<AccountRow>, entries: seq<Entry>)
    requires KeysOk(accounts, entries)
    ensures Repointed(accounts, Repointed(accounts, entries)) == Repointed(accounts, entries)
  {
    forall i | 0 <= i < |entries|
      ensures KeepId(accounts, KeepId(accounts, entries[i].account)) == KeepId(accounts, entries[i].account)
    {
      var j := AccountPlace(accounts, entries[i].account);
      KeepIdIs(accounts, j);
    }
  }

  /** When accounts are unique already, each keeps itself and the script changes nothing. */
  lemma {:induction false} UniqueStays(accounts: seq<AccountRow>, entries: seq<Entry>)
    requires KeysOk(accounts, entries) && GroupsUnique(accounts)
    ensures Kept(accounts) == accounts && Repointed(accounts, entries) == entries
  {
    forall i | 0 <= i < |accounts| ensures KeepId(accounts, accounts[i].id) == accounts[i].id {
      KeepIdIs(accounts, i);
      FirstOfIs(accounts, accounts[i].group);
    }
    AllKept(accounts, |accounts|);
    assert accounts[..|accounts|] == accounts;
    forall i | 0 <= i < |entries| ensures Repointed(accounts, entries)[i] == entries[i] {
      var j := AccountPlace(accounts, entries[i].account);
      assert KeepId(accounts, accounts[j].id) == accounts[j].id;
    }
  }

  lemma {:induction false} AllKept(accounts: seq<AccountRow>, n: nat)
    requires n <= |accounts| && forall i | 0 <= i < |accounts| :: KeepId(accounts, accounts[i].id) == accounts[i].id
    ensures KeptOf(accounts, n) == accounts[..n]
  {
    if n > 0 {
      AllKept(accounts, n - 1);
    }
  }

  /**
   * Without a wrapping transaction the script may stop after the UPDATE: running it from the start then
   * ends where the uninterrupted run ends, and running it once more changes nothing.
   */
  lemma {:induction false} RunningAgain(accounts: seq<AccountRow>, entries: seq<Entry>)
    requires KeysOk(accounts, entries)
    ensures var moved, left := Repointed(accounts, entries), Kept(accounts);
            && Repointed(accounts, moved) == moved
            && Kept(left) == left && Repointed(left, moved) == moved
  {
    KeepTwice(accounts, entries);
    NothingDangles(accounts, entries);
    OnePerGroup(accounts);
    UniqueStays(Kept(accounts), Repointed(accounts, entries));
  }
}
