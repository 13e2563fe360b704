/**
 * The outbox table and its dispatchers. Rows are claimed without a surrounding transaction, produced to
 * the log one by one and then marked, so delivery is at least once: whatever happens in between, a row
 * marked published is in the log and an unmarked one can still be claimed.
 */
module Outbox {
  import opened Results

  /** What travels to the log; consumers drop repeated event ids. */
  datatype Record = Record(eventId: nat, eventType: string, aggregate: nat, payload: string)

  /** A row of the table. Its id is its position. */
  datatype Row = Row(record: Record, publishedAt: Option<int>)

  datatype Table = Table(rows: seq<Row>, log: seq<Record>)

  // ---------------------------------------------------------------- the statements

  predicate Free(rows: seq<Row>, locked: set<nat>, id: nat) {
    id < |rows| && rows[id].publishedAt.None? && id !in locked
  }

  /** The unpublished rows no other claim has locked, by id. */
  function FreeRows(rows: seq<Row>, locked: set<nat>): seq<nat> {
    if rows == [] then []
    else
      var front, last := FreeRows(rows[..|rows| - 1], locked), |rows| - 1;
      if Free(rows, locked, last) then front + [last] else front
  }

  function First(ids: seq<nat>, n: nat): seq<nat> {
    if |ids| <= n then ids else ids[..n]
  }

  /** What a claim of n rows may return: the first n free rows, in any order. */
  ghost predicate MayClaim(rows: seq<Row>, locked: set<nat>, n: nat, ids: seq<nat>) {
    multiset(ids) == multiset(First(FreeRows(rows, locked), n))
  }

  /** A row that is already marked keeps its time. */
  function Mark(rows: seq<Row>, id: nat, now: int): seq<Row> {
    if id < |rows| && rows[id].publishedAt.None? then rows[id := rows[id].(publishedAt := Some(now))] else rows
  }

  lemma {:induction false} FreeRowsAre(rows: seq<Row>, locked: set<nat>)
    ensures forall id: nat :: id in FreeRows(rows, locked) <==> Free(rows, locked, id)
    ensures forall i, j | 0 <= i < j < |FreeRows(rows, locked)| :: FreeRows(rows, locked)[i] < FreeRows(rows, locked)[j]
  {
    if rows != [] {
      var front := FreeRows(rows[..|rows| - 1], locked);
      FreeRowsAre(rows[..|rows| - 1], locked);
      forall i | 0 <= i < |front| ensures front[i] < |rows| - 1 {
        assert Free(rows[..|rows| - 1], locked, front[i]);
      }
      forall id: nat ensures Free(rows, locked, id) <==> id in FreeRows(rows, locked) {
        assert Free(rows, locked, id) <==>
               (Free(rows[..|rows| - 1], locked, id) || (id == |rows| - 1 && Free(rows, locked, id)));
      }
    }
  }

  lemma {:induction false} SameElements(a: seq<nat>, b: seq<nat>)
    requires multiset(a) == multiset(b)
    ensures |a| == |b| && forall x: nat :: x in a <==> x in b
  {
    assert |a| == |multiset(a)| && |b| == |multiset(b)|;
    forall x: nat ensures x in a <==> x in b {
      assert x in a <==> x in multiset(a);
      assert x in b <==> x in multiset(b);
    }
  }

  /** A claim returns at most n rows, all free. */
  lemma {:induction false} ClaimedAreFree(rows: seq<Row>, locked: set<nat>, n: nat, ids: seq<nat>)
    requires MayClaim(rows, locked, n, ids)
    ensures |ids| <= n && forall id | id in ids :: Free(rows, locked, id)
  {
    FreeRowsAre(rows, locked);
    SameElements(ids, First(FreeRows(rows, locked), n));
  }

  // ---------------------------------------------------------------- several dispatchers

  /** A dispatcher's claimed rows still to handle, and whether the first of them has been produced. */
  datatype Hand = Hand(todo: seq<nat>, sent: bool)

  const IDLE := Hand([], false)

  datatype State = State(table: Table, hands: seq<Hand>)

  datatype Step =
    | Commits(record: Record)
    | Claims(d: nat, locked: set<nat>, ids: seq<nat>)
    | Sends(d: nat, ok: bool)
    | Marks(d: nat, ok: bool, now: int)
    | Crashes(d: nat)

  /** The unique constraint on event ids. */
  predicate NewEvent(rows: seq<Row>, r: Record) {
    forall i | 0 <= i < |rows| :: rows[i].record.eventId != r.eventId
  }

  /** One call of one dispatcher, or a commit elsewhere that adds a row. A step that cannot happen changes nothing. */
  ghost function Next(batch: nat, s: State, step: Step): State {
    match step
    case Commits(r) =>
      if NewEvent(s.table.rows, r) then s.(table := s.table.(rows := s.table.rows + [Row(r, None)])) else s
    case Claims(d, locked, ids) =>
      if d < |s.hands| && s.hands[d].todo == [] && MayClaim(s.table.rows, locked, batch, ids)
      then s.(hands := s.hands[d := Hand(ids, false)]) else s
    case Sends(d, ok) =>
      if d >= |s.hands| || s.hands[d].todo == [] || s.hands[d].sent || s.hands[d].todo[0] >= |s.table.rows| then s
      else if !ok then s.(hands := s.hands[d := Hand(s.hands[d].todo[1..], false)])
      else
        State(s.table.(log := s.table.log + [s.table.rows[s.hands[d].todo[0]].record]),
              s.hands[d := Hand(s.hands[d].todo, true)])
    case Marks(d, ok, now) =>
      if d >= |s.hands| || s.hands[d].todo == [] || !s.hands[d].sent then s
      else
        State(if ok then s.table.(rows := Mark(s.table.rows, s.hands[d].todo[0], now)) else s.table,
              s.hands[d := Hand(s.hands[d].todo[1..], false)])
    case Crashes(d) => if d < |s.hands| then s.(hands := s.hands[d := IDLE]) else s
  }

  ghost function Run(batch: nat, s: State, steps: seq<Step>): State
    decreases |steps|
  {
    if steps == [] then s else Run(batch, Next(batch, s, steps[0]), steps[1..])
  }

  ghost function Start(dispatchers: nat): State {
    State(Table([], []), Idle(dispatchers))
  }

  function Idle(n: nat): seq<Hand> {
    if n == 0 then [] else Idle(n - 1) + [IDLE]
  }

  lemma {:induction false} AllIdle(n: nat)
    ensures |Idle(n)| == n && forall d | 0 <= d < n :: Idle(n)[d] == IDLE
  {
    if n > 0 {
      AllIdle(n - 1);
    }
  }

  predicate InLog(t: Table, id: nat) {
    id < |t.rows| && t.rows[id].record in t.log
  }

  ghost predicate PublishedInLog(t: Table) {
    forall id: nat | id < |t.rows| && t.rows[id].publishedAt.Some? :: InLog(t, id)
  }

  ghost predicate LogFromRows(t: Table) {
    forall k | 0 <= k < |t.log| :: HasRow(t.rows, t.log[k])
  }

  predicate HasRow(rows: seq<Row>, r: Record) {
    exists id | 0 <= id < |rows| :: rows[id].record == r
  }

  ghost predicate HandOk(t: Table, h: Hand) {
    && (forall k | 0 <= k < |h.todo| :: h.todo[k] < |t.rows|)
    && (h.sent ==> h.todo != [] && InLog(t, h.todo[0]))
  }

  ghost predicate HandsOk(t: Table, hands: seq<Hand>) {
    forall d | 0 <= d < |hands| :: HandOk(t, hands[d])
  }

  ghost predicate DistinctEvents(rows: seq<Row>) {
    forall i, j | 0 <= i < j < |rows| :: rows[i].record.eventId != rows[j].record.eventId
  }

  ghost predicate Inv(s: State) {
    PublishedInLog(s.table) && LogFromRows(s.table) && DistinctEvents(s.table.rows) && HandsOk(s.table, s.hands)
  }

  /** Rows are only added and marked, once; the log only grows. */
  ghost predicate Grown(before: Table, after: Table) {
    && before.log <= after.log
    && |before.rows| <= |after.rows|
    && forall i | 0 <= i < |before.rows| ::
         && after.rows[i].record == before.rows[i].record
         && (before.rows[i].publishedAt.Some? ==> after.rows[i].publishedAt == before.rows[i].publishedAt)
  }

  lemma {:induction false} GrownKeeps(t: Table, u: Table, hands: seq<Hand>)
    requires Grown(t, u) && HandsOk(t, hands)
    ensures HandsOk(u, hands)
  {
    forall d | 0 <= d < |hands| ensures HandOk(u, hands[d]) {
      assert HandOk(t, hands[d]);
    }
  }

  lemma {:induction false} NextKeepsInv(batch: nat, s: State, step: Step)
    requires Inv(s)
    ensures Inv(Next(batch, s, step)) && Grown(s.table, Next(batch, s, step).table)
  {
    var s' := Next(batch, s, step);
    if s' != s {
      match step
      case Commits(r) =>
        GrownKeeps(s.table, s'.table, s.hands);
        CommitKeepsLog(s.table, r);
      case Claims(d, locked, ids) =>
        ClaimedAreFree(s.table.rows, locked, batch, ids);
        assert forall k | 0 <= k < |ids| :: Free(s.table.rows, locked, ids[k]);
        assert HandOk(s.table, Hand(ids, false));
      case Sends(d, ok) =>
        assert HandOk(s.table, s.hands[d]);
        if ok {
          SendKeepsLog(s.table, s.hands[d].todo[0]);
          GrownKeeps(s.table, s'.table, s.hands);
        }
      case Marks(d, ok, now) =>
        assert HandOk(s.table, s.hands[d]);
        if ok {
          MarkKeepsLog(s.table, s.hands[d].todo[0], now);
          GrownKeeps(s.table, s'.table, s.hands);
        }
      case Crashes(d) =>
    }
  }

  lemma {:induction false} StillFromRows(t: Table, u: Table)
    requires LogFromRows(t) && u.log == t.log && Grown(t, u)
    ensures LogFromRows(u)
  {
    forall k | 0 <= k < |u.log| ensures HasRow(u.rows, u.log[k]) {
      var id :| 0 <= id < |t.rows| && t.rows[id].record == t.log[k];
      assert u.rows[id].record == t.rows[id].record;
    }
  }

  lemma {:induction false} StillInLog(t: Table, u: Table)
    requires PublishedInLog(t) && Grown(t, u)
    requires forall id: nat | id < |u.rows| && u.rows[id].publishedAt.Some? ::
               (id < |t.rows| && t.rows[id].publishedAt.Some?) || InLog(u, id)
    ensures PublishedInLog(u)
  {
    forall id: nat | id < |u.rows| && u.rows[id].publishedAt.Some? ensures InLog(u, id) {
      assert InLog(u, id) || InLog(t, id);
    }
  }

  lemma {:induction false} CommitKeepsLog(t: Table, r: Record)
    requires PublishedInLog(t) && LogFromRows(t) && DistinctEvents(t.rows) && NewEvent(t.rows, r)
    ensures var t' := t.(rows := t.rows + [Row(r, None)]);
            PublishedInLog(t') && LogFromRows(t') && DistinctEvents(t'.rows)
  {
    var t' := t.(rows := t.rows + [Row(r, None)]);
    StillFromRows(t, t');
    StillInLog(t, t');
    NewEventIsDistinct(t.rows, r);
  }

  lemma {:induction false} NewEventIsDistinct(rows: seq<Row>, r: Record)
    requires DistinctEvents(rows) && NewEvent(rows, r)
    ensures DistinctEvents(rows + [Row(r, None)])
  {
    var rows' := rows + [Row(r, None)];
    forall i, j | 0 <= i < j < |rows'| ensures rows'[i].record.eventId != rows'[j].record.eventId {
      assert rows'[i] == rows[i];
    }
  }

  lemma {:induction false} SendKeepsLog(t: Table, id: nat)
    requires PublishedInLog(t) && LogFromRows(t) && id < |t.rows|
    ensures var t' := t.(log := t.log + [t.rows[id].record]);
            PublishedInLog(t') && LogFromRows(t') && InLog(t', id)
  {
    var t' := t.(log := t.log + [t.rows[id].record]);
    forall i: nat | i < |t'.rows| && t'.rows[i].publishedAt.Some? ensures InLog(t', i) {
      assert InLog(t, i);
    }
  }

  lemma {:induction false} MarkKeepsLog(t: Table, id: nat, now: int)
    requires PublishedInLog(t) && LogFromRows(t) && DistinctEvents(t.rows) && InLog(t, id)
    ensures var t' := t.(rows := Mark(t.rows, id, now));
            PublishedInLog(t') && LogFromRows(t') && DistinctEvents(t'.rows) && Grown(t, t')
  {
    var t' := t.(rows := Mark(t.rows, id, now));
    StillFromRows(t, t');
    StillInLog(t, t');
  }

  lemma {:induction false} RunKeepsInv(batch: nat, s: State, steps: seq<Step>)
    requires Inv(s)
    ensures Inv(Run(batch, s, steps)) && Grown(s.table, Run(batch, s, steps).table)
    decreases |steps|
  {
    if steps != [] {
      NextKeepsInv(batch, s, steps[0]);
      RunKeepsInv(batch, Next(batch, s, steps[0]), steps[1..]);
    }
  }

  /**
   * At least once, for any number of dispatchers, faults and crashes between any two calls: a row marked
   * published is in the log, the log holds nothing but rows' records, and no later run takes a row, its
   * time of publication or a record of the log away.
   */
  lemma {:induction false} NothingIsLost(batch: nat, dispatchers: nat, steps: seq<Step>, more: seq<Step>)
    ensures var s := Run(batch, Start(dispatchers), steps);
            && PublishedInLog(s.table) && LogFromRows(s.table)
            && Grown(s.table, Run(batch, s, more).table)
  {
    AllIdle(dispatchers);
    RunKeepsInv(batch, Start(dispatchers), steps);
    RunKeepsInv(batch, Run(batch, Start(dispatchers), steps), more);
  }

  // ---------------------------------------------------------------- two dispatchers, one row

  /** Copies of a row's record in the log. */
  function Copies(t: Table, id: nat): nat
    requires id < |t.rows|
  {
    multiset(t.log)[t.rows[id].record]
  }

  /**
   * SKIP LOCKED does not keep two dispatchers off the same row, since the locks end with the claim: here
   * the second one claims, after the first one's claim is over, the row the first one then sends.
   */
  lemma {:induction false} TwoDispatchersSendTwice(batch: nat, r: Record)
    requires batch > 0
    ensures var steps := [Commits(r), Claims(0, {}, [0]), Claims(1, {}, [0]), Sends(0, true), Sends(1, true)];
            var t := Run(batch, Start(2), steps).table;
            |t.rows| == 1 && Copies(t, 0) == 2
  {
    AllIdle(2);
    var s1 := Next(batch, Start(2), Commits(r));
    var s2 := Next(batch, s1, Claims(0, {}, [0]));
    var s3 := Next(batch, s2, Claims(1, {}, [0]));
    var s4 := Next(batch, s3, Sends(0, true));
    var s5 := Next(batch, s4, Sends(1, true));
    OnlyRowIsFree(s1.table.rows, batch);
    assert s2.hands == [Hand([0], false), IDLE];
    assert s3.hands == [Hand([0], false), Hand([0], false)];
    assert s4.table.log == [r];
    assert s5.table.log == [r, r];
    FiveSteps(batch, Start(2), Commits(r), Claims(0, {}, [0]), Claims(1, {}, [0]), Sends(0, true), Sends(1, true));
  }

  lemma {:induction false} OnlyRowIsFree(rows: seq<Row>, batch: nat)
    requires |rows| == 1 && rows[0].publishedAt.None? && batch > 0
    ensures MayClaim(rows, {}, batch, [0])
  {
    assert FreeRows(rows[..0], {}) == [];
    assert FreeRows(rows, {}) == [0];
  }

  lemma {:induction false} OneStep(batch: nat, s: State, step: Step, rest: seq<Step>)
    ensures Run(batch, s, [step] + rest) == Run(batch, Next(batch, s, step), rest)
  {
    assert ([step] + rest)[1..] == rest;
  }

  lemma {:induction false} FiveSteps(batch: nat, s: State, a: Step, b: Step, c: Step, d: Step, e: Step)
    ensures Run(batch, s, [a, b, c, d, e])
            == Next(batch, Next(batch, Next(batch, Next(batch, Next(batch, s, a), b), c), d), e)
  {
    var s1 := Next(batch, s, a);
    var s2 := Next(batch, s1, b);
    var s3 := Next(batch, s2, c);
    var s4 := Next(batch, s3, d);
    OneStep(batch, s, a, [b, c, d, e]);
    OneStep(batch, s1, b, [c, d, e]);
    OneStep(batch, s2, c, [d, e]);
    OneStep(batch, s3, d, [e]);
    OneStep(batch, s4, e, []);
    assert [a] + [b, c, d, e] == [a, b, c, d, e] && [b] + [c, d, e] == [b, c, d, e];
    assert [c] + [d, e] == [c, d, e] && [d] + [e] == [d, e] && [e] + [] == [e];
  }

  /** Nobody else has the claimed rows in hand, and after a send the row gets marked. */
  ghost predicate Careful(s: State, step: Step) {
    match step
    case Claims(d, locked, ids) =>
      forall e, k | 0 <= e < |s.hands| && e != d && 0 <= k < |s.hands[e].todo| :: s.hands[e].todo[k] !in ids
    case Marks(d, ok, now) => ok
    case Crashes(d) => d < |s.hands| ==> !s.hands[d].sent
    case _ => true
  }

  ghost predicate CarefulRun(batch: nat, s: State, steps: seq<Step>)
    decreases |steps|
  {
    steps == [] || (Careful(s, steps[0]) && CarefulRun(batch, Next(batch, s, steps[0]), steps[1..]))
  }

  predicate InHand(hands: seq<Hand>, d: nat, id: nat) {
    d < |hands| && id in hands[d].todo
  }

  predicate JustSent(hands: seq<Hand>, d: nat, id: nat) {
    d < |hands| && hands[d].sent && hands[d].todo != [] && hands[d].todo[0] == id
  }

  ghost predicate Delivered(s: State, id: nat) {
    id < |s.table.rows| && (s.table.rows[id].publishedAt.Some? || exists d: nat :: JustSent(s.hands, d, id))
  }

  predicate Distinct(ids: seq<nat>) {
    forall i, j | 0 <= i < j < |ids| :: ids[i] != ids[j]
  }

  /** A row in hand is unpublished, and in one hand once. */
  ghost predicate HandsApart(rows: seq<Row>, hands: seq<Hand>) {
    && (forall d | 0 <= d < |hands| :: Distinct(hands[d].todo))
    && (forall d: nat, e: nat, id: nat | InHand(hands, d, id) && InHand(hands, e, id) :: d == e)
    && (forall d: nat, id: nat | InHand(hands, d, id) :: id < |rows| && rows[id].publishedAt.None?)
  }

  ghost predicate OnceEach(s: State) {
    forall id: nat | id < |s.table.rows| :: Copies(s.table, id) == if Delivered(s, id) then 1 else 0
  }

  ghost predicate OnceInv(s: State) {
    Inv(s) && HandsApart(s.table.rows, s.hands) && OnceEach(s)
  }

  /** Appending one row's record adds a copy of that row only. */
  lemma {:induction false} CopiesAppend(t: Table, id: nat, other: nat)
    requires DistinctEvents(t.rows) && id < |t.rows| && other < |t.rows|
    ensures var t' := t.(log := t.log + [t.rows[id].record]);
            Copies(t', other) == Copies(t, other) + if other == id then 1 else 0
  {
    assert id < other ==> t.rows[id].record.eventId != t.rows[other].record.eventId;
    assert other < id ==> t.rows[other].record.eventId != t.rows[id].record.eventId;
  }

  lemma {:induction false} ClaimStaysOnce(batch: nat, s: State, d: nat, locked: set<nat>, ids: seq<nat>)
    requires OnceInv(s) && Careful(s, Claims(d, locked, ids))
    ensures var s' := Next(batch, s, Claims(d, locked, ids)); HandsApart(s'.table.rows, s'.hands) && OnceEach(s')
  {
    var s' := Next(batch, s, Claims(d, locked, ids));
    if s' != s {
      ClaimedAreFree(s.table.rows, locked, batch, ids);
      ClaimedDistinct(s.table.rows, locked, batch, ids);
      forall e: nat, id: nat ensures InHand(s'.hands, e, id) <==> if e == d then id in ids else InHand(s.hands, e, id) {
      }
      forall e: nat, id: nat | e != d && id in ids ensures !InHand(s.hands, e, id) {
      }
      forall e: nat, id: nat ensures JustSent(s'.hands, e, id) <==> JustSent(s.hands, e, id) {
        assert e == d ==> s.hands[d].todo == [];
      }
    }
  }

  lemma {:induction false} ClaimedDistinct(rows: seq<Row>, locked: set<nat>, n: nat, ids: seq<nat>)
    requires MayClaim(rows, locked, n, ids)
    ensures Distinct(ids)
  {
    FreeRowsAre(rows, locked);
    var first := First(FreeRows(rows, locked), n);
    forall i, j | 0 <= i < j < |ids| ensures ids[i] != ids[j] {
      if ids[i] == ids[j] {
        TwiceInMultiset(ids, i, j);
        SingleInMultiset(first, ids[i]);
      }
    }
  }

  lemma {:induction false} TwiceInMultiset(s: seq<nat>, i: nat, j: nat)
    requires i < j < |s| && s[i] == s[j]
    ensures multiset(s)[s[i]] >= 2
  {
    assert s == s[..j] + [s[j]] + s[j + 1..];
    assert s[i] in s[..j];
  }

  lemma {:induction false} SingleInMultiset(s: seq<nat>, x: nat)
    requires Distinct(s)
    ensures multiset(s)[x] <= 1
  {
    if s != [] {
      SingleInMultiset(s[1..], x);
      assert s == [s[0]] + s[1..];
    }
  }

  /** Giving up the first row in hand. */
  lemma {:induction false} FirstDropped(rows: seq<Row>, hands: seq<Hand>, d: nat, sent: bool)
    requires HandsApart(rows, hands) && d < |hands| && hands[d].todo != []
    ensures HandsApart(rows, hands[d := Hand(hands[d].todo[1..], sent)])
    ensures var hands', id := hands[d := Hand(hands[d].todo[1..], sent)], hands[d].todo[0];
            forall e: nat, x: nat | InHand(hands', e, x) :: InHand(hands, e, x) && x != id
  {
    var hands' := hands[d := Hand(hands[d].todo[1..], sent)];
    var todo := hands[d].todo;
    assert InHand(hands, d, todo[0]);
    forall x | x in todo[1..] ensures x in todo && x != todo[0] {
      var k :| 0 <= k < |todo| - 1 && todo[1..][k] == x;
      assert todo[k + 1] == x;
    }
    forall e: nat, x: nat | InHand(hands', e, x) ensures InHand(hands, e, x) && x != todo[0] {
      if e != d && x == todo[0] {
        assert InHand(hands, e, x);
      }
    }
  }

  lemma {:induction false} SentInHand(hands: seq<Hand>)
    ensures forall e: nat, x: nat | JustSent(hands, e, x) :: InHand(hands, e, x)
  {
  }

  lemma {:induction false} SendStaysOnce(batch: nat, s: State, d: nat, ok: bool)
    requires OnceInv(s)
    ensures var s' := Next(batch, s, Sends(d, ok)); HandsApart(s'.table.rows, s'.hands) && OnceEach(s')
  {
    var s' := Next(batch, s, Sends(d, ok));
    if s' != s {
      var id := s.hands[d].todo[0];
      if ok {
        forall e: nat, x: nat ensures InHand(s'.hands, e, x) <==> InHand(s.hands, e, x) {
        }
        assert !Delivered(s, id) by {
          assert InHand(s.hands, d, id);
          SentInHand(s.hands);
        }
        forall x: nat | x < |s.table.rows| ensures Copies(s'.table, x) == if Delivered(s', x) then 1 else 0 {
          CopiesAppend(s.table, id, x);
          assert JustSent(s'.hands, d, id);
          forall e: nat | e != d ensures JustSent(s'.hands, e, x) == JustSent(s.hands, e, x) {
          }
        }
      } else {
        FirstDropped(s.table.rows, s.hands, d, false);
        forall e: nat, x: nat ensures JustSent(s'.hands, e, x) <==> JustSent(s.hands, e, x) {
        }
        assert forall x: nat | x < |s.table.rows| :: Delivered(s', x) == Delivered(s, x);
      }
    }
  }

  lemma {:induction false} MarkStaysOnce(batch: nat, s: State, d: nat, now: int)
    requires OnceInv(s)
    ensures var s' := Next(batch, s, Marks(d, true, now)); HandsApart(s'.table.rows, s'.hands) && OnceEach(s')
  {
    var s' := Next(batch, s, Marks(d, true, now));
    if s' != s {
      var id := s.hands[d].todo[0];
      FirstDropped(s.table.rows, s.hands, d, false);
      assert HandOk(s.table, s.hands[d]);
      assert JustSent(s.hands, d, id) && Delivered(s, id);
      assert InHand(s.hands, d, id);
      forall x: nat | x < |s.table.rows| ensures Copies(s'.table, x) == if Delivered(s', x) then 1 else 0 {
        assert Copies(s'.table, x) == Copies(s.table, x);
        if x == id {
          assert s'.table.rows[id].publishedAt == Some(now);
        } else {
          forall e: nat ensures JustSent(s'.hands, e, x) == JustSent(s.hands, e, x) {
          }
        }
      }
    }
  }

  lemma {:induction false} CommitStaysOnce(batch: nat, s: State, r: Record)
    requires OnceInv(s)
    ensures var s' := Next(batch, s, Commits(r)); HandsApart(s'.table.rows, s'.hands) && OnceEach(s')
  {
    var s' := Next(batch, s, Commits(r));
    if s' != s {
      var n := |s.table.rows|;
      forall k | 0 <= k < |s.table.log| ensures s.table.log[k] != r {
        assert HasRow(s.table.rows, s.table.log[k]);
      }
      SentInHand(s.hands);
      assert forall e: nat :: !JustSent(s.hands, e, n);
      forall x: nat | x < |s'.table.rows| ensures Copies(s'.table, x) == if Delivered(s', x) then 1 else 0 {
        if x < n {
          assert Copies(s'.table, x) == Copies(s.table, x);
          assert Delivered(s', x) == Delivered(s, x);
        }
      }
    }
  }

  lemma {:induction false} CrashStaysOnce(batch: nat, s: State, d: nat)
    requires OnceInv(s) && Careful(s, Crashes(d))
    ensures var s' := Next(batch, s, Crashes(d)); HandsApart(s'.table.rows, s'.hands) && OnceEach(s')
  {
    var s' := Next(batch, s, Crashes(d));
    forall e: nat, x: nat ensures JustSent(s'.hands, e, x) == JustSent(s.hands, e, x) {
    }
    forall e: nat, x: nat | InHand(s'.hands, e, x) ensures InHand(s.hands, e, x) {
    }
    forall x: nat | x < |s.table.rows|
      ensures Delivered(s', x) == Delivered(s, x) && Copies(s'.table, x) == Copies(s.table, x)
    {
    }
  }

  lemma {:induction false} CarefulStaysOnce(batch: nat, s: State, steps: seq<Step>)
    requires OnceInv(s) && CarefulRun(batch, s, steps)
    ensures OnceInv(Run(batch, s, steps))
    decreases |steps|
  {
    if steps != [] {
      NextKeepsInv(batch, s, steps[0]);
      match steps[0] {
        case Commits(r) => CommitStaysOnce(batch, s, r);
        case Claims(d, locked, ids) => ClaimStaysOnce(batch, s, d, locked, ids);
        case Sends(d, ok) => SendStaysOnce(batch, s, d, ok);
        case Marks(d, ok, now) => MarkStaysOnce(batch, s, d, now);
        case Crashes(d) => CrashStaysOnce(batch, s, d);
      }
      CarefulStaysOnce(batch, Next(batch, s, steps[0]), steps[1..]);
    }
  }

  /**
   * Exactly once, as long as no dispatcher claims what another has in hand and every send is followed by
   * its mark: a record is in the log at most once, and once when its row is published.
   */
  lemma {:induction false} ExactlyOnceWhenCareful(batch: nat, dispatchers: nat, steps: seq<Step>, id: nat)
    requires CarefulRun(batch, Start(dispatchers), steps)
    requires id < |Run(batch, Start(dispatchers), steps).table.rows|
    ensures var t := Run(batch, Start(dispatchers), steps).table;
            Copies(t, id) <= 1 && (t.rows[id].publishedAt.Some? ==> Copies(t, id) == 1)
  {
    var start := Start(dispatchers);
    AllIdle(dispatchers);
    assert forall d: nat, x: nat :: !InHand(start.hands, d, x);
    CarefulStaysOnce(batch, start, steps);
    assert OnceEach(Run(batch, start, steps));
  }

  // ---------------------------------------------------------------- when rows meet in two hands

  /** A free row's place among the free rows is the number of free rows before it. */
  lemma {:induction false} FreePlace(rows: seq<Row>, locked: set<nat>, id: nat)
    requires Free(rows, locked, id)
    ensures var k := |FreeRows(rows[..id], locked)|;
            k < |FreeRows(rows, locked)| && FreeRows(rows, locked)[k] == id
  {
    var front := rows[..|rows| - 1];
    if id < |front| {
      FreePlace(front, locked, id);
      assert front[..id] == rows[..id];
    } else {
      assert rows[..id] == front;
    }
  }

  lemma {:induction false} FirstFree(rows: seq<Row>, locked: set<nat>, n: nat, id: nat)
    ensures id in First(FreeRows(rows, locked), n) <==>
              Free(rows, locked, id) && |FreeRows(rows[..id], locked)| < n
  {
    var all := FreeRows(rows, locked);
    FreeRowsAre(rows, locked);
    if Free(rows, locked, id) {
      FreePlace(rows, locked, id);
      var k := |FreeRows(rows[..id], locked)|;
      if k < n {
        assert First(all, n)[k] == id;
      } else {
        forall i | 0 <= i < |First(all, n)| ensures First(all, n)[i] != id {
          assert all[i] < all[k];
        }
      }
    }
  }

  /** A row in another dispatcher's hand that a claim of a batch reaches, past the rows others have locked. */
  predicate WithinReach(s: State, batch: nat, locked: set<nat>, d: nat, e: nat, id: nat) {
    && e != d && InHand(s.hands, e, id)
    && Free(s.table.rows, locked, id) && |FreeRows(s.table.rows[..id], locked)| < batch
  }

  /**
   * When a claim takes a row another dispatcher has in hand: exactly when such a row is unmarked, not locked
   * by a claim under way, and among the first such rows.
   */
  lemma {:induction false} ClaimOverlapsExactly(s: State, batch: nat, locked: set<nat>, d: nat, ids: seq<nat>)
    requires MayClaim(s.table.rows, locked, batch, ids)
    ensures (exists e: nat, id: nat :: e != d && InHand(s.hands, e, id) && id in ids) <==>
            (exists e: nat, id: nat :: WithinReach(s, batch, locked, d, e, id))
  {
    SameElements(ids, First(FreeRows(s.table.rows, locked), batch));
    forall e: nat, id: nat
      ensures e != d && InHand(s.hands, e, id) && id in ids <==> WithinReach(s, batch, locked, d, e, id)
    {
      FirstFree(s.table.rows, locked, batch, id);
    }
  }
}
