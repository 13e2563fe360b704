/** The dispatcher's poll: claim a batch, send its rows one by one, mark each row that was sent. */
module OutboxDispatcher {
  import opened Results
  import opened Outbox

  // ---------------------------------------------------------------- one tick

  /** The table after one claimed row; what fails to be sent or marked is left for later. */
  function HandleRow(t: Table, id: nat, sends: bool, marks: bool, now: int): Table {
    if !sends || id >= |t.rows| then t
    else Table(if marks then Mark(t.rows, id, now) else t.rows, t.log + [t.rows[id].record])
  }

  /** The table after the first n claimed rows. */
  function Handle(t: Table, ids: seq<nat>, n: nat, sends: nat -> bool, marks: nat -> bool, now: int): Table
    requires n <= |ids|
  {
    if n == 0 then t
    else HandleRow(Handle(t, ids, n - 1, sends, marks, now), ids[n - 1], sends(ids[n - 1]), marks(ids[n - 1]), now)
  }

  lemma {:induction false} InRange(rows: seq<Row>, batch: nat, ids: seq<nat>)
    requires MayClaim(rows, {}, batch, ids)
    ensures forall k | 0 <= k < |ids| :: ids[k] < |rows|
  {
    ClaimedAreFree(rows, {}, batch, ids);
    assert forall k | 0 <= k < |ids| :: Free(rows, {}, ids[k]);
  }

  function Records(rows: seq<Row>, ids: seq<nat>): (r: seq<Record>)
    requires forall k | 0 <= k < |ids| :: ids[k] < |rows|
    ensures |r| == |ids| && forall k | 0 <= k < |r| :: r[k] == rows[ids[k]].record
  {
    if ids == [] then [] else Records(rows, ids[..|ids| - 1]) + [rows[ids[|ids| - 1]].record]
  }

  class Store {
    var rows: seq<Row>

    constructor (rows: seq<Row>)
      ensures this.rows == rows
    {
      this.rows := rows;
    }

    /** The first n unpublished rows; the query does not say in which order they come. */
    method Claim(n: nat, ok: bool) returns (r: Option<seq<nat>>)
      ensures ok == r.Some?
      ensures ok ==> MayClaim(rows, {}, n, r.value)
    {
      if !ok {
        return None;
      }
      var ids: seq<nat> := [];
      var i := 0;
      while i < |rows|
        invariant 0 <= i <= |rows|
        invariant ids == First(FreeRows(rows[..i], {}), n)
      {
        assert rows[..i + 1][..i] == rows[..i];
        if |ids| < n && rows[i].publishedAt.None? {
          ids := ids + [i];
        }
        i := i + 1;
      }
      assert rows[..i] == rows;
      return Some(ids);
    }

    method MarkPublished(id: nat, now: int, ok: bool) returns (done: bool)
      modifies this
      ensures done == ok && rows == if ok then Mark(old(rows), id, now) else old(rows)
    {
      if ok && id < |rows| && rows[id].publishedAt.None? {
        rows := rows[id := rows[id].(publishedAt := Some(now))];
      }
      return ok;
    }
  }

  class Topic {
    var log: seq<Record>

    constructor (log: seq<Record>)
      ensures this.log == log
    {
      this.log := log;
    }

    method Produce(r: Record, ok: bool) returns (done: bool)
      modifies this
      ensures done == ok && log == if ok then old(log) + [r] else old(log)
    {
      if ok {
        log := log + [r];
      }
      return ok;
    }
  }

  class Dispatcher {
    const store: Store
    const topic: Topic
    const batch: nat

    constructor (store: Store, topic: Topic, batch: nat)
      ensures this.store == store && this.topic == topic && this.batch == batch
    {
      this.store, this.topic, this.batch := store, topic, batch;
    }

    ghost function Now(): Table
      reads store, topic
    {
      Table(store.rows, topic.log)
    }

    /** One claimed row: sends it, and marks it when it was sent. */
    method Publish(id: nat, sends: bool, marks: bool, now: int)
      requires id < |store.rows|
      modifies store, topic
      ensures Now() == HandleRow(old(Now()), id, sends, marks, now)
    {
      var sent := topic.Produce(store.rows[id].record, sends);
      if sent {
        var marked := store.MarkPublished(id, now, marks);
      }
    }

    /** Publishes one batch. `sends` and `marks` say which calls succeed. */
    method Tick(claims: bool, sends: nat -> bool, marks: nat -> bool, now: int) returns (ids: seq<nat>)
      modifies store, topic
      ensures !claims ==> ids == [] && Now() == old(Now())
      ensures claims ==> MayClaim(old(store.rows), {}, batch, ids)
      ensures Now() == Handle(old(Now()), ids, |ids|, sends, marks, now)
    {
      var claimed := store.Claim(batch, claims);
      if claimed.None? {
        return [];
      }
      ids := claimed.value;
      InRange(store.rows, batch, ids);
      var k := 0;
      while k < |ids|
        invariant 0 <= k <= |ids| && |store.rows| == |old(store.rows)|
        invariant Now() == Handle(old(Now()), ids, k, sends, marks, now)
      {
        Publish(ids[k], sends(ids[k]), marks(ids[k]), now);
        k := k + 1;
      }
    }

    /** Polls `ticks` times without faults. */
    method Run(ticks: nat, clock: nat -> int) returns (ghost orders: seq<seq<nat>>)
      modifies store, topic
      ensures |orders| == ticks && InOrder(old(Now()), batch, orders, clock)
      ensures Now() == Ticks(old(Now()), orders, clock)
    {
      orders := [];
      var k := 0;
      while k < ticks
        invariant 0 <= k <= ticks && |orders| == k
        invariant InOrder(old(Now()), batch, orders, clock)
        invariant Now() == Ticks(old(Now()), orders, clock)
      {
        var ids := Tick(true, All, All, clock(k));
        assert (orders + [ids])[..k] == orders;
        orders := orders + [ids];
        k := k + 1;
      }
    }
  }

  function All(id: nat): bool {
    true
  }

  /** Faultless ticks, one per claimed batch. */
  function Ticks(t: Table, orders: seq<seq<nat>>, clock: nat -> int): Table {
    if orders == [] then t
    else
      var last := |orders| - 1;
      Handle(Ticks(t, orders[..last], clock), orders[last], |orders[last]|, All, All, clock(last))
  }

  /** Each batch is one that a claim at its time may return. */
  ghost predicate InOrder(t: Table, batch: nat, orders: seq<seq<nat>>, clock: nat -> int) {
    orders == [] ||
    var last := |orders| - 1;
    InOrder(t, batch, orders[..last], clock) && MayClaim(Ticks(t, orders[..last], clock).rows, {}, batch, orders[last])
  }

  // ---------------------------------------------------------------- a tick is a run of the dispatcher's steps

  function TickSteps(d: nat, ids: seq<nat>, n: nat, sends: nat -> bool, marks: nat -> bool, now: int): seq<Step>
    requires n <= |ids|
  {
    if n == 0 then []
    else
      TickSteps(d, ids, n - 1, sends, marks, now) +
      if sends(ids[n - 1]) then [Sends(d, true), Marks(d, marks(ids[n - 1]), now)] else [Sends(d, false)]
  }

  lemma {:induction false} RunConcat(batch: nat, s: State, a: seq<Step>, b: seq<Step>)
    ensures Run(batch, s, a + b) == Run(batch, Run(batch, s, a), b)
    decreases |a|
  {
    if a == [] {
      assert a + b == b;
    } else {
      assert (a + b)[1..] == a[1..] + b;
      RunConcat(batch, Next(batch, s, a[0]), a[1..], b);
    }
  }

  lemma {:induction false} HandleKeepsRows(t: Table, ids: seq<nat>, n: nat,
                                           sends: nat -> bool, marks: nat -> bool, now: int)
    requires n <= |ids|
    ensures |Handle(t, ids, n, sends, marks, now).rows| == |t.rows|
  {
    if n > 0 {
      HandleKeepsRows(t, ids, n - 1, sends, marks, now);
    }
  }

  /** What holds of every run of claims, sends, marks and crashes therefore holds of ticks, cut off anywhere. */
  lemma {:induction false} TickIsARun(batch: nat, s: State, d: nat, ids: seq<nat>, n: nat,
                                      sends: nat -> bool, marks: nat -> bool, now: int)
    requires d < |s.hands| && s.hands[d] == Hand(ids, false) && n <= |ids|
    requires forall k | 0 <= k < |ids| :: ids[k] < |s.table.rows|
    ensures Run(batch, s, TickSteps(d, ids, n, sends, marks, now))
            == State(Handle(s.table, ids, n, sends, marks, now), s.hands[d := Hand(ids[n..], false)])
  {
    if n == 0 {
      assert s.hands[d := Hand(ids[0..], false)] == s.hands;
    } else {
      TickIsARun(batch, s, d, ids, n - 1, sends, marks, now);
      HandleKeepsRows(s.table, ids, n - 1, sends, marks, now);
      var id := ids[n - 1];
      var u := State(Handle(s.table, ids, n - 1, sends, marks, now), s.hands[d := Hand(ids[n - 1..], false)]);
      var more := if sends(id) then [Sends(d, true), Marks(d, marks(id), now)] else [Sends(d, false)];
      RunConcat(batch, s, TickSteps(d, ids, n - 1, sends, marks, now), more);
      assert ids[n - 1..][0] == id && ids[n - 1..][1..] == ids[n..];
      OneRow(batch, u, d, sends(id), marks(id), now);
    }
  }

  lemma {:induction false} OneRow(batch: nat, s: State, d: nat, sends: bool, marks: bool, now: int)
    requires d < |s.hands| && s.hands[d].todo != [] && !s.hands[d].sent && s.hands[d].todo[0] < |s.table.rows|
    ensures var id := s.hands[d].todo[0];
            var rest := s.hands[d := Hand(s.hands[d].todo[1..], false)];
            && Run(batch, s, [Sends(d, false)]) == s.(hands := rest)
            && Run(batch, s, [Sends(d, true), Marks(d, marks, now)])
               == State(Table(if marks then Mark(s.table.rows, id, now) else s.table.rows,
                              s.table.log + [s.table.rows[id].record]), rest)
  {
    OneStep(batch, s, Sends(d, false), []);
    var s1 := Next(batch, s, Sends(d, true));
    OneStep(batch, s, Sends(d, true), [Marks(d, marks, now)]);
    OneStep(batch, s1, Marks(d, marks, now), []);
    assert [Sends(d, false)] + [] == [Sends(d, false)];
    assert [Sends(d, true)] + [Marks(d, marks, now)] == [Sends(d, true), Marks(d, marks, now)];
    assert [Marks(d, marks, now)] + [] == [Marks(d, marks, now)];
    assert Next(batch, s1, Marks(d, marks, now)).hands == s.hands[d := Hand(s.hands[d].todo[1..], false)];
  }

  // ---------------------------------------------------------------- what a tick does

  /** The rows among the first n claimed that could be sent. */
  function SentOf(ids: seq<nat>, n: nat, sends: nat -> bool): (r: seq<nat>)
    requires n <= |ids|
    ensures forall k | 0 <= k < |r| :: r[k] in ids
  {
    if n == 0 then []
    else if sends(ids[n - 1]) then SentOf(ids, n - 1, sends) + [ids[n - 1]]
    else SentOf(ids, n - 1, sends)
  }

  /** From t to u: the row with this id, if it was unpublished and `done`, became published now; no other row changed. */
  ghost predicate RowsStamped(t: Table, u: Table, id: nat, done: bool, now: int) {
    && |u.rows| == |t.rows|
    && forall i | 0 <= i < |t.rows| ::
         && u.rows[i].record == t.rows[i].record
         && u.rows[i].publishedAt ==
            if t.rows[i].publishedAt.None? && i == id && done then Some(now) else t.rows[i].publishedAt
  }

  lemma {:induction false} RowDoes(t: Table, id: nat, sends: bool, marks: bool, now: int)
    requires id < |t.rows|
    ensures var u := HandleRow(t, id, sends, marks, now);
            && u.log == (if sends then t.log + [t.rows[id].record] else t.log)
            && RowsStamped(t, u, id, sends && marks, now)
  {
  }

  /** The same for the first n rows claimed. */
  ghost predicate TickStamped(t: Table, u: Table, ids: seq<nat>, n: nat, sends: nat -> bool, marks: nat -> bool, now: int)
    requires n <= |ids|
  {
    && |u.rows| == |t.rows|
    && forall i | 0 <= i < |t.rows| ::
         && u.rows[i].record == t.rows[i].record
         && u.rows[i].publishedAt ==
            if t.rows[i].publishedAt.None? && i in ids[..n] && sends(i) && marks(i) then Some(now)
            else t.rows[i].publishedAt
  }

  lemma {:induction false} StampedOn(t: Table, u: Table, w: Table, ids: seq<nat>, n: nat,
                                     sends: nat -> bool, marks: nat -> bool, now: int)
    requires 0 < n <= |ids| && TickStamped(t, u, ids, n - 1, sends, marks, now)
    requires RowsStamped(u, w, ids[n - 1], sends(ids[n - 1]) && marks(ids[n - 1]), now)
    ensures TickStamped(t, w, ids, n, sends, marks, now)
  {
    assert ids[..n] == ids[..n - 1] + [ids[n - 1]];
  }

  lemma {:induction false} LogOn(t: Table, u: Table, w: Table, sent: seq<nat>, id: nat, sends: bool)
    requires (forall k | 0 <= k < |sent| :: sent[k] < |t.rows|) && id < |t.rows| == |u.rows|
    requires u.rows[id].record == t.rows[id].record && u.log == t.log + Records(t.rows, sent)
    requires w.log == if sends then u.log + [u.rows[id].record] else u.log
    ensures w.log == t.log + Records(t.rows, if sends then sent + [id] else sent)
  {
    RecordsGrow(t.rows, sent, id);
  }

  lemma {:induction false} RecordsGrow(rows: seq<Row>, ids: seq<nat>, id: nat)
    requires id < |rows| && forall k | 0 <= k < |ids| :: ids[k] < |rows|
    ensures Records(rows, ids + [id]) == Records(rows, ids) + [rows[id].record]
  {
    assert (ids + [id])[..|ids|] == ids;
  }

  /**
   * For any failing calls: the log grows by the records of the rows that were sent, in the order claimed, and a
   * row becomes published, at this tick's time, exactly when it was unpublished, claimed, sent and marked.
   */
  lemma {:induction false} TickDoes(t: Table, ids: seq<nat>, n: nat, sends: nat -> bool, marks: nat -> bool, now: int)
    requires n <= |ids| && forall k | 0 <= k < |ids| :: ids[k] < |t.rows|
    ensures var u := Handle(t, ids, n, sends, marks, now);
            && u.log == t.log + Records(t.rows, SentOf(ids, n, sends))
            && TickStamped(t, u, ids, n, sends, marks, now)
  {
    if n > 0 {
      var u, id := Handle(t, ids, n - 1, sends, marks, now), ids[n - 1];
      TickDoes(t, ids, n - 1, sends, marks, now);
      RowDoes(u, id, sends(id), marks(id), now);
      var w := HandleRow(u, id, sends(id), marks(id), now);
      StampedOn(t, u, w, ids, n, sends, marks, now);
      LogOn(t, u, w, SentOf(ids, n - 1, sends), id, sends(id));
      assert Handle(t, ids, n, sends, marks, now) == w;
    }
  }

  /** A claim leaves a free row only when it has its n rows, and these have lower ids. */
  lemma {:induction false} ClaimIsLowest(rows: seq<Row>, locked: set<nat>, n: nat, ids: seq<nat>, other: nat)
    requires MayClaim(rows, locked, n, ids) && Free(rows, locked, other) && other !in ids
    ensures |ids| == n && forall id | id in ids :: id < other
  {
    var free := FreeRows(rows, locked);
    FreeRowsAre(rows, locked);
    SameElements(ids, First(free, n));
    var first := First(free, n);
    forall i | 0 <= i < |first| ensures first[i] in ids {
      assert first[i] in first;
    }
    var k :| 0 <= k < |free| && free[k] == other;
    forall id | id in ids ensures id < other {
      assert id in first;
    }
  }

  // ---------------------------------------------------------------- draining

  function Pending(t: Table): nat {
    |FreeRows(t.rows, {})|
  }

  lemma {:induction false} AllSent(ids: seq<nat>, n: nat)
    requires n <= |ids|
    ensures SentOf(ids, n, All) == ids[..n]
  {
    if n > 0 {
      AllSent(ids, n - 1);
      assert ids[..n] == ids[..n - 1] + [ids[n - 1]];
    }
  }

  /** A faultless tick logs the claimed rows, in the order claimed. */
  lemma {:induction false} HandledLog(t: Table, ids: seq<nat>, n: nat, now: int)
    requires n <= |ids| && forall k | 0 <= k < |ids| :: ids[k] < |t.rows|
    ensures Handle(t, ids, n, All, All, now).log == t.log + Records(t.rows, ids[..n])
  {
    TickDoes(t, ids, n, All, All, now);
    AllSent(ids, n);
  }

  /** And marks them, each of them and no other. */
  lemma {:induction false} HandledRows(t: Table, ids: seq<nat>, n: nat, now: int)
    requires n <= |ids| && forall k | 0 <= k < |ids| :: ids[k] < |t.rows|
    ensures var u := Handle(t, ids, n, All, All, now);
            && |u.rows| == |t.rows|
            && forall i | 0 <= i < |t.rows| ::
                 && u.rows[i].record == t.rows[i].record
                 && (u.rows[i].publishedAt.None? <==> t.rows[i].publishedAt.None? && i !in ids[..n])
  {
    if n > 0 {
      HandledRows(t, ids, n - 1, now);
      assert ids[..n] == ids[..n - 1] + [ids[n - 1]];
    }
  }

  /** From t to u: the given rows went to the log, in this order, and left the unpublished ones. */
  ghost predicate Moved(t: Table, u: Table, ids: seq<nat>) {
    && (forall k | 0 <= k < |ids| :: ids[k] < |t.rows|)
    && u.log == t.log + Records(t.rows, ids)
    && |u.rows| == |t.rows| && (forall i | 0 <= i < |t.rows| :: u.rows[i].record == t.rows[i].record)
    && multiset(FreeRows(t.rows, {})) == multiset(ids) + multiset(FreeRows(u.rows, {}))
  }

  lemma {:induction false} MovedOn(t: Table, u: Table, w: Table, a: seq<nat>, b: seq<nat>)
    requires Moved(t, u, a) && Moved(u, w, b)
    ensures Moved(t, w, a + b)
  {
    RecordsOn(t.rows, u.rows, a, b);
  }

  lemma {:induction false} RecordsOn(rows: seq<Row>, rows': seq<Row>, a: seq<nat>, b: seq<nat>)
    requires |rows'| == |rows| && forall i | 0 <= i < |rows| :: rows'[i].record == rows[i].record
    requires (forall k | 0 <= k < |a| :: a[k] < |rows|) && (forall k | 0 <= k < |b| :: b[k] < |rows|)
    ensures forall k | 0 <= k < |a + b| :: (a + b)[k] < |rows|
    ensures Records(rows, a + b) == Records(rows, a) + Records(rows', b)
  {
  }

  /** A tick takes from the unpublished rows exactly those it claimed. */
  lemma {:induction false} TickTakes(t: Table, batch: nat, ids: seq<nat>, now: int)
    requires MayClaim(t.rows, {}, batch, ids)
    ensures var u := Handle(t, ids, |ids|, All, All, now);
            && Moved(t, u, ids)
            && Pending(u) == Left(Pending(t), batch)
  {
    ClaimedAreFree(t.rows, {}, batch, ids);
    assert forall k | 0 <= k < |ids| :: Free(t.rows, {}, ids[k]);
    HandledLog(t, ids, |ids|, now);
    HandledRows(t, ids, |ids|, now);
    assert ids[..|ids|] == ids;
    var u := Handle(t, ids, |ids|, All, All, now);
    SameElements(ids, First(FreeRows(t.rows, {}), batch));
    Taken(t.rows, u.rows, batch, ids);
    Sizes(FreeRows(t.rows, {}), ids, FreeRows(u.rows, {}));
  }

  lemma {:induction false} Sizes(a: seq<nat>, b: seq<nat>, c: seq<nat>)
    requires multiset(a) == multiset(b) + multiset(c)
    ensures |a| == |b| + |c|
  {
    assert |multiset(a)| == |a| && |multiset(b)| == |b| && |multiset(c)| == |c|;
  }

  lemma {:induction false} Taken(rows: seq<Row>, rows': seq<Row>, batch: nat, ids: seq<nat>)
    requires MayClaim(rows, {}, batch, ids) && |rows'| == |rows|
    requires forall i | 0 <= i < |rows| :: rows'[i].publishedAt.None? <==> rows[i].publishedAt.None? && i !in ids
    ensures multiset(FreeRows(rows, {})) == multiset(ids) + multiset(FreeRows(rows', {}))
  {
    var all, left := FreeRows(rows, {}), FreeRows(rows', {});
    FreeRowsAre(rows, {});
    FreeRowsAre(rows', {});
    ClaimedAreFree(rows, {}, batch, ids);
    ClaimedDistinct(rows, {}, batch, ids);
    var all', ids', left' := multiset(all), multiset(ids), multiset(left);
    forall x: nat ensures all'[x] == ids'[x] + left'[x] {
      SingleInMultiset(all, x);
      SingleInMultiset(ids, x);
      SingleInMultiset(left, x);
      assert x in all <==> Free(rows, {}, x);
      assert x in left <==> Free(rows', {}, x);
      assert x in ids ==> Free(rows, {}, x);
      assert x in all' <==> x in all;
      assert x in ids' <==> x in ids;
      assert x in left' <==> x in left;
    }
  }

  function Flat(orders: seq<seq<nat>>): seq<nat> {
    if orders == [] then [] else Flat(orders[..|orders| - 1]) + orders[|orders| - 1]
  }

  /** After k faultless ticks, k batches are gone from the unpublished rows, each row of them logged once. */
  lemma {:induction false} TicksTake(t: Table, batch: nat, orders: seq<seq<nat>>, clock: nat -> int)
    requires InOrder(t, batch, orders, clock)
    ensures Moved(t, Ticks(t, orders, clock), Flat(orders))
    ensures Pending(Ticks(t, orders, clock)) == Left(Pending(t), batch * |orders|)
  {
    if orders == [] {
      NothingMoved(t);
    } else {
      var last := |orders| - 1;
      var u := Ticks(t, orders[..last], clock);
      TicksTake(t, batch, orders[..last], clock);
      TickTakes(u, batch, orders[last], clock(last));
      MovedOn(t, u, Ticks(t, orders, clock), Flat(orders[..last]), orders[last]);
      LeftOn(Pending(t), batch, last);
    }
  }

  function Left(n: nat, taken: int): int {
    if n <= taken then 0 else n - taken
  }

  lemma {:induction false} LeftOn(n: nat, batch: nat, k: nat)
    ensures Left(Left(n, batch * k), batch) == Left(n, batch * (k + 1))
  {
    assert batch * (k + 1) == batch * k + batch;
  }

  lemma {:induction false} NothingMoved(t: Table)
    ensures Moved(t, t, [])
  {
    assert t.log + Records(t.rows, []) == t.log;
  }

  /**
   * One dispatcher without faults or new rows drains n pending rows in ceil(n / batch) ticks and no fewer,
   * and then each pending row has gone to the log exactly once. It may start from any state that several
   * faulty dispatchers left behind.
   */
  lemma {:induction false} OneDispatcherDrains(t: Table, batch: nat, orders: seq<seq<nat>>, clock: nat -> int)
    requires InOrder(t, batch, orders, clock)
    ensures var u := Ticks(t, orders, clock);
            && (Pending(u) == 0 <==> Pending(t) <= batch * |orders|)
            && (Pending(u) == 0 ==>
                  exists ids: seq<nat> :: multiset(ids) == multiset(FreeRows(t.rows, {})) && Moved(t, u, ids))
  {
    TicksTake(t, batch, orders, clock);
    var u := Ticks(t, orders, clock);
    if Pending(u) == 0 {
      assert multiset(Flat(orders)) == multiset(FreeRows(t.rows, {}));
    }
  }

  // ---------------------------------------------------------------- when another copy can be sent

  /** The rows a dispatcher may still send. */
  function Unsent(h: Hand): seq<nat> {
    if h.sent && h.todo != [] then h.todo[1..] else h.todo
  }

  predicate UnsentIn(s: State, d: nat, id: nat) {
    d < |s.hands| && id in Unsent(s.hands[d])
  }

  /** The row is not marked, or some dispatcher has it in hand unsent. */
  ghost predicate Sendable(s: State, id: nat)
    requires id < |s.table.rows|
  {
    s.table.rows[id].publishedAt.None? || exists d: nat :: UnsentIn(s, d, id)
  }

  /** The row stays unsendable, and its copies are what they were. */
  ghost predicate StillDone(t: Table, s': State, id: nat)
    requires id < |t.rows|
  {
    id < |s'.table.rows| && !Sendable(s', id) && Copies(s'.table, id) == Copies(t, id)
  }

  /** A hand that moves on to its next row, or has sent the first, holds nothing more unsent. */
  lemma {:induction false} HandMovesOn(h: Hand, id: nat)
    requires h.todo != [] && id !in Unsent(h)
    ensures id !in Unsent(Hand(h.todo[1..], false)) && id !in Unsent(Hand(h.todo, true))
  {
    assert forall x | x in h.todo[1..] :: x in h.todo;
  }

  lemma {:induction false} ClaimLeavesDone(batch: nat, s: State, d: nat, locked: set<nat>, ids: seq<nat>, id: nat)
    requires Inv(s) && id < |s.table.rows| && !Sendable(s, id)
    ensures StillDone(s.table, Next(batch, s, Claims(d, locked, ids)), id)
  {
    var s' := Next(batch, s, Claims(d, locked, ids));
    if s' != s {
      ClaimedAreFree(s.table.rows, locked, batch, ids);
      assert id !in ids;
      OtherHands(s, s', d, id);
    }
  }

  lemma {:induction false} SendLeavesDone(batch: nat, s: State, d: nat, ok: bool, id: nat)
    requires Inv(s) && id < |s.table.rows| && !Sendable(s, id)
    ensures StillDone(s.table, Next(batch, s, Sends(d, ok)), id)
  {
    var s' := Next(batch, s, Sends(d, ok));
    if s' != s {
      assert !UnsentIn(s, d, id);
      HandMovesOn(s.hands[d], id);
      OtherHands(s, s', d, id);
      if ok {
        CopiesAppend(s.table, s.hands[d].todo[0], id);
      }
    }
  }

  lemma {:induction false} MarkLeavesDone(batch: nat, s: State, d: nat, ok: bool, now: int, id: nat)
    requires Inv(s) && id < |s.table.rows| && !Sendable(s, id)
    ensures StillDone(s.table, Next(batch, s, Marks(d, ok, now)), id)
  {
    var s' := Next(batch, s, Marks(d, ok, now));
    if s' != s {
      assert !UnsentIn(s, d, id);
      HandMovesOn(s.hands[d], id);
      OtherHands(s, s', d, id);
    }
  }

  lemma {:induction false} DoneStaysDone(batch: nat, s: State, step: Step, id: nat)
    requires Inv(s) && id < |s.table.rows| && !Sendable(s, id)
    ensures StillDone(s.table, Next(batch, s, step), id)
  {
    match step
    case Claims(d, locked, ids) => ClaimLeavesDone(batch, s, d, locked, ids, id);
    case Sends(d, ok) => SendLeavesDone(batch, s, d, ok, id);
    case Marks(d, ok, now) => MarkLeavesDone(batch, s, d, ok, now, id);
    case Crashes(d) =>
      if d < |s.hands| {
        OtherHands(s, Next(batch, s, step), d, id);
      }
    case Commits(_) =>
      forall d: nat ensures UnsentIn(Next(batch, s, step), d, id) == UnsentIn(s, d, id) {
      }
  }

  /** Only one hand changed, and the row is not unsent in it. */
  lemma {:induction false} OtherHands(s: State, s': State, d: nat, id: nat)
    requires d < |s.hands| == |s'.hands| && id < |s.table.rows| && forall e: nat :: !UnsentIn(s, e, id)
    requires forall e | 0 <= e < |s.hands| && e != d :: s'.hands[e] == s.hands[e]
    requires id !in Unsent(s'.hands[d])
    ensures forall e: nat :: !UnsentIn(s', e, id)
  {
    forall e: nat ensures !UnsentIn(s', e, id) {
      assert !UnsentIn(s, e, id);
    }
  }

  lemma {:induction false} DoneForGood(batch: nat, s: State, more: seq<Step>, id: nat)
    requires Inv(s) && id < |s.table.rows| && !Sendable(s, id)
    ensures id < |Run(batch, s, more).table.rows| && Copies(Run(batch, s, more).table, id) == Copies(s.table, id)
    decreases |more|
  {
    if more != [] {
      DoneStaysDone(batch, s, more[0], id);
      NextKeepsInv(batch, s, more[0]);
      DoneForGood(batch, Next(batch, s, more[0]), more[1..], id);
    }
  }

  /** The steps lead to one more copy. */
  ghost predicate SendsAgain(batch: nat, s: State, more: seq<Step>, id: nat)
    requires id < |s.table.rows|
  {
    id < |Run(batch, s, more).table.rows| && Copies(Run(batch, s, more).table, id) > Copies(s.table, id)
  }

  lemma {:induction false} CopiesGrow(t: Table, u: Table, id: nat)
    requires Grown(t, u) && id < |t.rows|
    ensures Copies(u, id) >= Copies(t, id)
  {
    assert u.log == t.log + u.log[|t.log|..];
  }

  lemma {:induction false} AfterStep(batch: nat, s: State, step: Step, more: seq<Step>, id: nat)
    requires Inv(s) && id < |s.table.rows|
    requires id < |Next(batch, s, step).table.rows| && SendsAgain(batch, Next(batch, s, step), more, id)
    ensures SendsAgain(batch, s, [step] + more, id)
  {
    OneStep(batch, s, step, more);
    NextKeepsInv(batch, s, step);
    CopiesGrow(s.table, Next(batch, s, step).table, id);
  }

  /** A dispatcher that has the row in hand unsent can get to it. */
  lemma {:induction false} HandSends(batch: nat, s: State, d: nat, id: nat) returns (more: seq<Step>)
    requires Inv(s) && id < |s.table.rows| && UnsentIn(s, d, id)
    ensures SendsAgain(batch, s, more, id)
    decreases |s.hands[d].todo|
  {
    var h := s.hands[d];
    assert HandOk(s.table, h);
    var step := if h.sent then Marks(d, false, 0) else Sends(d, h.todo[0] == id);
    var s1 := Next(batch, s, step);
    NextKeepsInv(batch, s, step);
    if !h.sent && h.todo[0] == id {
      CopiesAppend(s.table, id, id);
      OneStep(batch, s, step, []);
      assert [step] + [] == [step];
      more := [step];
    } else {
      assert s1.hands[d] == Hand(h.todo[1..], false);
      assert UnsentIn(s1, d, id);
      more := HandSends(batch, s1, d, id);
      AfterStep(batch, s, step, more, id);
      more := [step] + more;
    }
  }

  lemma {:induction false} Concat(batch: nat, s: State, a: seq<Step>, b: seq<Step>, id: nat)
    requires Inv(s) && id < |s.table.rows|
    requires id < |Run(batch, s, a).table.rows| && SendsAgain(batch, Run(batch, s, a), b, id)
    ensures SendsAgain(batch, s, a + b, id)
  {
    RunConcat(batch, s, a, b);
    RunKeepsInv(batch, s, a);
    CopiesGrow(s.table, Run(batch, s, a).table, id);
  }

  /** An idle dispatcher claims a batch, and sends and marks it. */
  function WholeTick(d: nat, ids: seq<nat>): seq<Step> {
    [Claims(d, {}, ids)] + TickSteps(d, ids, |ids|, All, All, 0)
  }

  lemma {:induction false} TickPublishes(batch: nat, s: State, d: nat, ids: seq<nat>)
    requires d < |s.hands| && s.hands[d] == IDLE && MayClaim(s.table.rows, {}, batch, ids)
    ensures Run(batch, s, WholeTick(d, ids)).table == Handle(s.table, ids, |ids|, All, All, 0)
    ensures Run(batch, s, WholeTick(d, ids)).hands == s.hands
  {
    var claimed := Next(batch, s, Claims(d, {}, ids));
    ClaimedAreFree(s.table.rows, {}, batch, ids);
    assert forall k | 0 <= k < |ids| :: Free(s.table.rows, {}, ids[k]);
    OneStep(batch, s, Claims(d, {}, ids), TickSteps(d, ids, |ids|, All, All, 0));
    TickIsARun(batch, claimed, d, ids, |ids|, All, All, 0);
    assert ids[|ids|..] == [];
    assert claimed.hands[d := IDLE] == s.hands;
  }

  lemma {:induction false} FirstMayBeClaimed(rows: seq<Row>, batch: nat, id: nat)
    requires batch > 0 && Free(rows, {}, id)
    ensures MayClaim(rows, {}, batch, First(FreeRows(rows, {}), batch)) && First(FreeRows(rows, {}), batch) != []
  {
    FreeRowsAre(rows, {});
  }

  /** Tick by tick, an idle dispatcher comes to any unmarked row. */
  lemma {:induction false} IdleSends(batch: nat, s: State, id: nat) returns (more: seq<Step>)
    requires Inv(s) && batch > 0 && |s.hands| > 0 && s.hands[0] == IDLE && Free(s.table.rows, {}, id)
    ensures SendsAgain(batch, s, more, id)
    decreases Pending(s.table)
  {
    var ids := First(FreeRows(s.table.rows, {}), batch);
    FirstMayBeClaimed(s.table.rows, batch, id);
    if id in ids {
      var step := Claims(0, {}, ids);
      NextKeepsInv(batch, s, step);
      assert UnsentIn(Next(batch, s, step), 0, id);
      more := HandSends(batch, Next(batch, s, step), 0, id);
      AfterStep(batch, s, step, more, id);
      more := [step] + more;
    } else {
      var s1 := Run(batch, s, WholeTick(0, ids));
      TickPublishes(batch, s, 0, ids);
      RunKeepsInv(batch, s, WholeTick(0, ids));
      TickLeaves(s.table, batch, ids, id);
      more := IdleSends(batch, s1, id);
      Concat(batch, s, WholeTick(0, ids), more, id);
      more := WholeTick(0, ids) + more;
    }
  }

  /** A tick leaves unmarked what it did not claim, and there is less left. */
  lemma {:induction false} TickLeaves(t: Table, batch: nat, ids: seq<nat>, id: nat)
    requires MayClaim(t.rows, {}, batch, ids) && batch > 0 && Free(t.rows, {}, id) && id !in ids
    ensures var u := Handle(t, ids, |ids|, All, All, 0);
            Free(u.rows, {}, id) && Pending(u) < Pending(t)
  {
    ClaimedAreFree(t.rows, {}, batch, ids);
    assert forall k | 0 <= k < |ids| :: Free(t.rows, {}, ids[k]);
    HandledRows(t, ids, |ids|, 0);
    assert ids[..|ids|] == ids;
    FirstMayBeClaimed(t.rows, batch, id);
    TickTakes(t, batch, ids, 0);
  }

  /**
   * The exact bound of at-least-once delivery: from any reachable state, some continuation sends another
   * copy of a row exactly when the row is not marked or a dispatcher has it in hand unsent.
   */
  lemma {:induction false} AnotherCopyExactly(batch: nat, dispatchers: nat, steps: seq<Step>, id: nat)
    requires batch > 0 && dispatchers > 0
    requires id < |Run(batch, Start(dispatchers), steps).table.rows|
    ensures var s := Run(batch, Start(dispatchers), steps);
            Sendable(s, id) <==> exists more: seq<Step> :: SendsAgain(batch, s, more, id)
  {
    var s := Run(batch, Start(dispatchers), steps);
    AllIdle(dispatchers);
    RunKeepsInv(batch, Start(dispatchers), steps);
    HandsStay(batch, Start(dispatchers), steps);
    if Sendable(s, id) {
      var more := SendableSends(batch, s, id);
      assert SendsAgain(batch, s, more, id);
    } else {
      forall more: seq<Step> ensures !SendsAgain(batch, s, more, id) {
        DoneForGood(batch, s, more, id);
      }
    }
  }

  lemma {:induction false} SendableSends(batch: nat, s: State, id: nat) returns (more: seq<Step>)
    requires Inv(s) && batch > 0 && |s.hands| > 0 && id < |s.table.rows| && Sendable(s, id)
    ensures SendsAgain(batch, s, more, id)
  {
    if d: nat :| UnsentIn(s, d, id) {
      more := HandSends(batch, s, d, id);
    } else {
      var s1 := Next(batch, s, Crashes(0));
      NextKeepsInv(batch, s, Crashes(0));
      assert Free(s1.table.rows, {}, id);
      more := IdleSends(batch, s1, id);
      AfterStep(batch, s, Crashes(0), more, id);
      more := [Crashes(0)] + more;
    }
  }

  lemma {:induction false} HandsStay(batch: nat, s: State, steps: seq<Step>)
    ensures |Run(batch, s, steps).hands| == |s.hands|
    decreases |steps|
  {
    if steps != [] {
      HandsStay(batch, Next(batch, s, steps[0]), steps[1..]);
    }
  }
}
