/** Booking a capture moves exactly three balances, keeps every transaction balanced and no account twice. */
module LedgerProofs {
  import opened Results
  import opened PledgeModel
  import opened PledgeQueries
  import opened PledgeService
  import opened PledgeInvariant
  import opened Sums

  ghost predicate AccountsOk(accounts: seq<Account>, entries: seq<Entry>) {
    && (forall i: nat, j: nat | i < j < |accounts| :: accounts[i] != accounts[j])
    && (forall e | e in entries :: e.account < |accounts|)
  }

  /** The account upsert changes no balance: a fresh account has no entries. */
  lemma {:induction false} EnsureKeepsBalances(accounts: seq<Account>, entries: seq<Entry>, a: Account)
    requires AccountsOk(accounts, entries)
    ensures AccountsOk(EnsureAccount(accounts, a), entries)
    ensures forall k :: Balance(EnsureAccount(accounts, a), entries, k) == Balance(accounts, entries, k)
  {
    var after := EnsureAccount(accounts, a);
    if a !in accounts {
      forall k ensures Balance(after, entries, k) == Balance(accounts, entries, k) {
        if k == a {
          SumZero(entries, OnAccount(|accounts|));
        } else if k in accounts {
          assert after[AccountId(accounts, k)] == k;
        }
      }
    }
  }

  /** Posting one row moves the balance of its own account and no other. */
  lemma {:induction false} PostMovesOne(accounts: seq<Account>, entries: seq<Entry>, e: Entry)
    requires AccountsOk(accounts, entries) && e.account < |accounts|
    ensures AccountsOk(accounts, entries + [e])
    ensures forall k :: Balance(accounts, entries + [e], k)
                        == Balance(accounts, entries, k) + if k == accounts[e.account] then Signed(e) else 0
  {
    forall k ensures Balance(accounts, entries + [e], k)
                     == Balance(accounts, entries, k) + if k == accounts[e.account] then Signed(e) else 0
    {
      if k in accounts {
        SumAppend(entries, e, OnAccount(AccountId(accounts, k)));
      }
    }
  }

  function Positive(fee: int): int {
    if fee > 0 then fee else 0
  }

  /** By how much booking a capture moves the balance of account `k`. */
  function Moved(k: Account, amount: int, fee: int, credited: Account): int {
    (if k == Account(PlatformEscrow, None) then amount - Positive(fee) else 0) +
    (if k == Account(GatewayFeeExpense, None) then Positive(fee) else 0) -
    (if k == credited then amount else 0)
  }

  lemma {:induction false} CaptureRowsMove(accounts: seq<Account>, entries: seq<Entry>, txn: nat, amount: int,
                                           fee: int, credited: Account)
    requires AccountsOk(accounts, entries)
    requires Account(PlatformEscrow, None) in accounts && credited in accounts
    requires fee > 0 ==> Account(GatewayFeeExpense, None) in accounts
    ensures var rows := CaptureRows(accounts, txn, amount, fee, credited);
            && AccountsOk(accounts, entries + rows)
            && forall k :: Balance(accounts, entries + rows, k)
                           == Balance(accounts, entries, k) + Moved(k, amount, fee, credited)
  {
    var rows := CaptureRows(accounts, txn, amount, fee, credited);
    PostMovesOne(accounts, entries, rows[0]);
    PostMovesOne(accounts, entries + [rows[0]], rows[1]);
    assert entries + [rows[0]] + [rows[1]] == entries + rows[..2];
    if fee > 0 {
      PostMovesOne(accounts, entries + rows[..2], rows[2]);
      PostMovesOne(accounts, entries + rows[..2] + [rows[2]], rows[3]);
      assert entries + rows[..2] + [rows[2]] + [rows[3]] == entries + rows;
    } else {
      assert rows[..2] == rows;
    }
  }

  lemma {:induction false} AccountsReady(accounts: seq<Account>, entries: seq<Entry>, fee: int, credited: Account)
    requires AccountsOk(accounts, entries)
    ensures AccountsOk(CaptureAccounts(accounts, fee, credited), entries)
    ensures forall k :: Balance(CaptureAccounts(accounts, fee, credited), entries, k) == Balance(accounts, entries, k)
  {
    var one := EnsureAccount(accounts, Account(PlatformEscrow, None));
    EnsureKeepsBalances(accounts, entries, Account(PlatformEscrow, None));
    EnsureKeepsBalances(one, entries, credited);
    EnsureKeepsBalances(EnsureAccount(one, credited), entries, Account(GatewayFeeExpense, None));
  }

  /** The new rows belong to the new transaction and cancel out, so no transaction's imbalance moves. */
  lemma {:induction false} RowsBalance(accounts: seq<Account>, entries: seq<Entry>, txn: nat, amount: int, fee: int,
                    credited: Account, k: nat)
    requires Account(PlatformEscrow, None) in accounts && credited in accounts
    requires fee > 0 ==> Account(GatewayFeeExpense, None) in accounts
    ensures Imbalance(entries + CaptureRows(accounts, txn, amount, fee, credited), k) == Imbalance(entries, k)
  {
    var rows := CaptureRows(accounts, txn, amount, fee, credited);
    SumConcat(entries, rows, OfTxn(k));
    var two := [rows[0], rows[1]];
    SumAppend([rows[0]], rows[1], OfTxn(k));
    SumAppend([], rows[0], OfTxn(k));
    assert [] + [rows[0]] == [rows[0]] && [rows[0]] + [rows[1]] == two;
    if fee > 0 {
      SumAppend(two, rows[2], OfTxn(k));
      SumAppend(two + [rows[2]], rows[3], OfTxn(k));
      assert two + [rows[2]] + [rows[3]] == rows;
    } else {
      assert two == rows;
    }
  }

  lemma {:induction false} RowsKeepBalanced(accounts: seq<Account>, entries: seq<Entry>, txns: seq<LedgerTxn>,
                                            txn: LedgerTxn,
                         amount: int, fee: int, credited: Account)
    requires Account(PlatformEscrow, None) in accounts && credited in accounts
    requires fee > 0 ==> Account(GatewayFeeExpense, None) in accounts
    requires AllBalanced(txns, entries) && forall e | e in entries :: e.txn < |txns|
    ensures AllBalanced(txns + [txn], entries + CaptureRows(accounts, |txns|, amount, fee, credited))
  {
    forall k: nat | k < |txns| + 1
      ensures Imbalance(entries + CaptureRows(accounts, |txns|, amount, fee, credited), k) == 0
    {
      RowsBalance(accounts, entries, |txns|, amount, fee, credited, k);
      if k == |txns| {
        SumZero(entries, OfTxn(k));
      }
    }
  }

  /** The three ledger tables, apart from the rest. */
  datatype Books = Books(accounts: seq<Account>, txns: seq<LedgerTxn>, entries: seq<Entry>)

  function BooksOf(t: Tables): Books {
    Books(t.accounts, t.txns, t.entries)
  }

  ghost predicate BooksOk(b: Books) {
    LedgerRefs(b.accounts, b.txns, b.entries) && AllBalanced(b.txns, b.entries)
  }

  /** The books `after` are `before` with one more capture booked, and still in order. */
  ghost predicate Booking(before: Books, id: nat, amount: int, fee: int, credited: Account, after: Books) {
    && after.txns == before.txns + [LedgerTxn(PledgeCapture, id)]
    && BooksOk(after)
    && BalancesMoved(before, after, amount, fee, credited)
  }

  ghost predicate BalancesMoved(before: Books, after: Books, amount: int, fee: int, credited: Account) {
    forall k :: Balance(after.accounts, after.entries, k)
                == Balance(before.accounts, before.entries, k) + Moved(k, amount, fee, credited)
  }

  /** The books with a capture's rows, in the accounts they need. */
  function WithCapture(b: Books, id: nat, amount: int, fee: int, credited: Account): Books {
    var accounts := CaptureAccounts(b.accounts, fee, credited);
    Books(accounts, b.txns + [LedgerTxn(PledgeCapture, id)],
          b.entries + CaptureRows(accounts, |b.txns|, amount, fee, credited))
  }

  lemma {:induction false} RowsMove(b: Books, id: nat, amount: int, fee: int, credited: Account)
    requires AccountsOk(b.accounts, b.entries)
    ensures var after := WithCapture(b, id, amount, fee, credited);
            AccountsOk(after.accounts, after.entries) && BalancesMoved(b, after, amount, fee, credited)
  {
    AccountsReady(b.accounts, b.entries, fee, credited);
    CaptureRowsMove(CaptureAccounts(b.accounts, fee, credited), b.entries, |b.txns|, amount, fee, credited);
  }

  lemma {:induction false} RowsRefer(txns: seq<LedgerTxn>, txn: LedgerTxn, accounts: seq<Account>,
                                     entries: seq<Entry>, rows: seq<Entry>)
    requires forall i: nat, j: nat | i < j < |txns| :: txns[i] != txns[j]
    requires txn !in txns && AccountsOk(accounts, entries + rows)
    requires forall e | e in entries :: e.txn < |txns| && e.amount > 0
    requires forall e | e in rows :: e.txn == |txns| && e.amount > 0
    ensures LedgerRefs(accounts, txns + [txn], entries + rows)
  {
  }

  lemma {:induction false} CaptureRowsBelong(accounts: seq<Account>, txn: nat, amount: int, fee: int, credited: Account)
    requires Account(PlatformEscrow, None) in accounts && credited in accounts
    requires fee > 0 ==> Account(GatewayFeeExpense, None) in accounts
    requires amount > 0
    ensures forall e | e in CaptureRows(accounts, txn, amount, fee, credited) :: e.txn == txn && e.amount > 0
  {
  }

  lemma {:induction false} BooksRefer(b: Books, id: nat, amount: int, fee: int, credited: Account)
    requires LedgerRefs(b.accounts, b.txns, b.entries) && LedgerTxn(PledgeCapture, id) !in b.txns && amount > 0
    requires var after := WithCapture(b, id, amount, fee, credited); AccountsOk(after.accounts, after.entries)
    ensures var after := WithCapture(b, id, amount, fee, credited);
            LedgerRefs(after.accounts, after.txns, after.entries)
  {
    var accounts := CaptureAccounts(b.accounts, fee, credited);
    CaptureRowsBelong(accounts, |b.txns|, amount, fee, credited);
    RowsRefer(b.txns, LedgerTxn(PledgeCapture, id), accounts, b.entries,
              CaptureRows(accounts, |b.txns|, amount, fee, credited));
  }

  lemma {:induction false} BooksBalance(b: Books, id: nat, amount: int, fee: int, credited: Account)
    requires AllBalanced(b.txns, b.entries) && forall e | e in b.entries :: e.txn < |b.txns|
    ensures AllBalanced(WithCapture(b, id, amount, fee, credited).txns, WithCapture(b, id, amount, fee, credited).entries)
  {
    RowsKeepBalanced(CaptureAccounts(b.accounts, fee, credited), b.entries, b.txns, LedgerTxn(PledgeCapture, id),
                     amount, fee, credited);
  }

  lemma {:induction false} AddUp(b: Books, after: Books, id: nat, amount: int, fee: int, credited: Account)
    requires after.txns == b.txns + [LedgerTxn(PledgeCapture, id)]
    requires LedgerRefs(after.accounts, after.txns, after.entries) && AllBalanced(after.txns, after.entries)
    requires BalancesMoved(b, after, amount, fee, credited)
    ensures Booking(b, id, amount, fee, credited, after)
  {
  }

  lemma {:induction false} RowsBooked(b: Books, id: nat, amount: int, fee: int, credited: Account)
    requires BooksOk(b) && LedgerTxn(PledgeCapture, id) !in b.txns && amount > 0
    ensures Booking(b, id, amount, fee, credited, WithCapture(b, id, amount, fee, credited))
  {
    RowsMove(b, id, amount, fee, credited);
    BooksRefer(b, id, amount, fee, credited);
    BooksBalance(b, id, amount, fee, credited);
    AddUp(b, WithCapture(b, id, amount, fee, credited), id, amount, fee, credited);
  }

  lemma {:induction false} RecordCaptureEffect(t: Tables, id: nat, amount: int, fee: int, credited: Account)
    requires BooksOk(BooksOf(t))
    requires LedgerTxn(PledgeCapture, id) !in t.txns
    requires RecordCapture(t, id, amount, fee, credited).Ok?
    ensures amount > 0
    ensures var t' := RecordCapture(t, id, amount, fee, credited).value;
            && t' == t.(accounts := t'.accounts, txns := t'.txns, entries := t'.entries)
            && Booking(BooksOf(t), id, amount, fee, credited, BooksOf(t'))
  {
    var rows := CaptureRows(CaptureAccounts(t.accounts, fee, credited), |t.txns|, amount, fee, credited);
    assert rows[0] in rows;
    RowsBooked(BooksOf(t), id, amount, fee, credited);
  }
}
