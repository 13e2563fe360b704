/**
 * The Redis guard in front of the webhook transaction. Whatever Redis answers, the tables run as without
 * it on a subset of the deliveries; an honest Redis never hides an event that nobody is processing.
 */
module WebhookDedup {
  import opened Results
  import opened PledgeModel
  import opened PledgeQueries
  import opened PledgeService
  import opened PledgeHistory

  // ---------------------------------------------------------------- Redis as an adversary

  /** What HandleWebhook answers, and whether it deletes the event's key again. */
  datatype Handled = Handled(outcome: Outcome, releases: bool)

  /** `answer` is SETNX's reply: None for an error, Some(false) when the key is said to be taken. */
  function Handle(t: Tables, e: Webhook, answer: Option<bool>, fault: bool): Handled {
    if e.id == "" then Handled(Outcome(t, Some(MalformedEvent)), false)
    else if answer == Some(false) then Handled(Outcome(t, Some(DuplicateEvent)), false)
    else
      var o := Deliver(t, e, fault);
      Handled(o, o.error.Some? && o.error.value != DuplicateEvent)
  }

  /** The key is given back exactly when the delivery was let through and failed, other than as a repeat. */
  lemma {:induction false} ReleasedExactly(t: Tables, e: Webhook, answer: Option<bool>, fault: bool)
    ensures var h := Handle(t, e, answer, fault);
            && (h.releases <==> e.id != "" && answer != Some(false) && h.outcome.error.Some?
                                && h.outcome.error != Some(DuplicateEvent))
            && (e.id != "" && answer == Some(false) ==> h.outcome == Outcome(t, Some(DuplicateEvent)))
            && (answer != Some(false) ==> h.outcome == Deliver(t, e, fault))
  {
  }

  datatype Input =
    | Request(op: Op)
    | Arrive(event: Webhook, answer: Option<bool>, fault: bool)

  function HandleAll(t: Tables, inputs: seq<Input>): Tables
    decreases |inputs|
  {
    if inputs == [] then t
    else
      var t1 := match inputs[0]
        case Request(op) => Step(t, op)
        case Arrive(e, answer, fault) => Handle(t, e, answer, fault).outcome.tables;
      HandleAll(t1, inputs[1..])
  }

  /** The same inputs without Redis, less the deliveries it turned away. */
  function Kept(inputs: seq<Input>): seq<Op> {
    if inputs == [] then []
    else
      (match inputs[0]
       case Request(op) => [op]
       case Arrive(e, answer, fault) => if answer == Some(false) then [] else [DeliverWebhook(e, fault)])
      + Kept(inputs[1..])
  }

  /** For any Redis at all, the tables evolve as without it on the deliveries it let through. */
  lemma {:induction false} RedisOnlyDrops(t: Tables, inputs: seq<Input>)
    ensures HandleAll(t, inputs) == Run(t, Kept(inputs))
    decreases |inputs|
  {
    if inputs != [] {
      match inputs[0]
      case Request(op) =>
        RunFirst(t, op, Kept(inputs[1..]));
        RedisOnlyDrops(Step(t, op), inputs[1..]);
      case Arrive(e, answer, fault) =>
        if answer == Some(false) {
          assert [] + Kept(inputs[1..]) == Kept(inputs[1..]);
          RedisOnlyDrops(t, inputs[1..]);
        } else {
          RunFirst(t, DeliverWebhook(e, fault), Kept(inputs[1..]));
          RedisOnlyDrops(Step(t, DeliverWebhook(e, fault)), inputs[1..]);
        }
    }
  }

  lemma {:induction false} RunFirst(t: Tables, op: Op, rest: seq<Op>)
    ensures Run(t, [op] + rest) == Run(Step(t, op), rest)
  {
    RunAfter(t, [op], rest);
    RunOne(t, op);
  }

  /** So behind any Redis each provider event commits at most once. */
  lemma {:induction false} CommitsOnceBehindRedis(t: Tables, inputs: seq<Input>, eventId: string)
    ensures Commits(t, Kept(inputs), eventId)
            == if !EventRecorded(t.events, eventId) && EventRecorded(HandleAll(t, inputs).events, eventId) then 1 else 0
  {
    RedisOnlyDrops(t, inputs);
    EventCommitsAtMostOnce(t, Kept(inputs), eventId);
  }

  // ---------------------------------------------------------------- an honest Redis

  /** Tables, the keys Redis holds, the deliveries between SETNX and their end, and SETNXs given up on. */
  datatype Sys = Sys(tables: Tables, keys: set<string>, flying: multiset<string>, late: multiset<string>)

  /** How SETNX goes: it is answered, it never gets there, or it is given up on and may still take effect. */
  datatype Link = Answers | Down | GivenUp

  /**
   * Deliveries overlap: each arrives and ends later. `deleted` says whether the DEL that a failed delivery
   * asks for takes effect; its error is only logged. Keys expire, Redis may be flushed, and a SETNX that
   * was given up on may land at any time. A crash loses the process before or after its commit.
   */
  datatype Event =
    | Arrives(id: string, link: Link)
    | Ends(webhook: Webhook, fault: bool, deleted: bool)
    | Crashes(webhook: Webhook, committed: bool)
    | Lands(id: string)
    | Expires(id: string)
    | Flushes
    | Other(op: Op)

  /** The delivery is turned away by the key. */
  predicate TurnedAway(s: Sys, ev: Event) {
    ev.Arrives? && ev.link == Answers && ev.id in s.keys
  }

  /** The keys once a SETNX has taken effect, or not. */
  function KeysSet(keys: set<string>, id: string, sets: bool): set<string> {
    if sets then keys + {id} else keys
  }

  /** The keys once a delivery has ended. */
  function KeysEnd(keys: set<string>, id: string, releases: bool, deleted: bool): set<string> {
    if releases && deleted then keys - {id} else keys
  }

  function Next(s: Sys, ev: Event): Sys {
    match ev
    case Arrives(id, link) =>
      if id == "" || TurnedAway(s, ev) then s
      else
        s.(keys := KeysSet(s.keys, id, link == Answers), flying := s.flying + multiset{id},
           late := if link == GivenUp then s.late + multiset{id} else s.late)
    case Ends(e, fault, deleted) =>
      if e.id !in s.flying then s
      else
        var h := Handle(s.tables, e, Some(true), fault);
        s.(tables := h.outcome.tables, keys := KeysEnd(s.keys, e.id, h.releases, deleted),
           flying := s.flying - multiset{e.id})
    case Crashes(e, committed) =>
      if e.id !in s.flying then s
      else s.(tables := if committed then Deliver(s.tables, e, false).tables else s.tables,
              flying := s.flying - multiset{e.id})
    case Lands(id) =>
      if id !in s.late then s else s.(keys := KeysSet(s.keys, id, true), late := s.late - multiset{id})
    case Expires(id) => s.(keys := s.keys - {id})
    case Flushes => s.(keys := {})
    case Other(op) => s.(tables := Step(s.tables, op))
  }

  function Play(s: Sys, evs: seq<Event>): Sys
    decreases |evs|
  {
    if evs == [] then s else Play(Next(s, evs[0]), evs[1..])
  }

  /** A retry would be turned away although the event is neither recorded nor being processed. */
  predicate Stranded(s: Sys, id: string) {
    id in s.keys && !EventRecorded(s.tables.events, id) && id !in s.flying
  }

  /** The delivery goes without its commit and without the key being deleted: it crashes, or it fails and DEL does. */
  predicate LeavesKey(s: Sys, ev: Event, id: string) {
    || (ev.Crashes? && ev.webhook.id == id && !(ev.committed && Deliver(s.tables, ev.webhook, false).error.None?))
    || (ev.Ends? && ev.webhook.id == id && !ev.deleted && Deliver(s.tables, ev.webhook, ev.fault).error.Some?)
  }

  /** The last delivery in flight leaves the key behind, or a SETNX lands that no delivery waits for any more. */
  predicate Strands(s: Sys, ev: Event, id: string) {
    && !EventRecorded(s.tables.events, id)
    && (|| (LeavesKey(s, ev, id) && id in s.keys && s.flying[id] == 1)
        || (ev == Lands(id) && id in s.late && id !in s.flying))
  }

  /** The key goes, or the event is processed by a way around Redis. */
  predicate Frees(s: Sys, ev: Event, id: string) {
    || ev == Expires(id)
    || ev == Flushes
    || (ev.Arrives? && ev.id == id && ev.link != Answers)
    || (ev.Other? && ev.op.DeliverWebhook? && ev.op.event.id == id
        && Deliver(s.tables, ev.op.event, ev.op.fault).error.None?)
  }

  lemma {:induction false} RecordedStays(t: Tables, op: Op, id: string)
    requires EventRecorded(t.events, id)
    ensures EventRecorded(Step(t, op).events, id)
  {
    StepEvents(t, op);
    var i :| 0 <= i < |t.events| && t.events[i].id == id;
    assert Step(t, op).events[i].id == id;
  }

  /** A delivery that ends without releasing its key has left its event on record. */
  lemma {:induction false} EndedMeansRecorded(t: Tables, e: Webhook, fault: bool)
    requires e.id != "" && !Handle(t, e, Some(true), fault).releases
    ensures EventRecorded(Handle(t, e, Some(true), fault).outcome.tables.events, e.id)
  {
    var op := DeliverWebhook(e, fault);
    StepEvents(t, op);
    var o := Deliver(t, e, fault);
    if o.error.None? {
      assert o.tables.events[|t.events|].id == e.id;
    } else {
      DuplicateMeansRecorded(t, e, fault);
    }
  }

  lemma {:induction false} CaptureNeverDuplicate(t: Tables, id: nat, p: Pledge, c: Capture)
    ensures ApplyCapture(t, id, p, c) != Err(DuplicateEvent)
  {
  }

  lemma {:induction false} DuplicateMeansRecorded(t: Tables, e: Webhook, fault: bool)
    requires Deliver(t, e, fault).error == Some(DuplicateEvent)
    ensures EventRecorded(t.events, e.id)
  {
    var r := InsertEvent(t, PaymentEvent(e.id, e.kind, NotedPledge(e.note)));
    if r.Ok? && e.kind.PaymentCaptured? && Resolve(r.value, e).Ok? {
      var id := Resolve(r.value, e).value;
      if id < |r.value.pledges| {
        CaptureNeverDuplicate(r.value, id, r.value.pledges[id], e.capture);
      }
    }
  }

  /** Recorded after a delivery or another request: before it, or by it. */
  lemma {:induction false} RecordedAfter(t: Tables, op: Op, id: string)
    ensures EventRecorded(Step(t, op).events, id) <==>
              || EventRecorded(t.events, id)
              || (op.DeliverWebhook? && op.event.id == id && Deliver(t, op.event, op.fault).error.None?)
  {
    StepEvents(t, op);
    var after := Step(t, op).events;
    if EventRecorded(t.events, id) {
      RecordedStays(t, op, id);
    }
    forall i | 0 <= i < |t.events| ensures after[i] == t.events[i] {
    }
    if |after| > |t.events| {
      assert after[|t.events|].id == op.event.id;
    }
  }

  lemma {:induction false} EndStrands(s: Sys, ev: Event, id: string)
    requires ev.Ends? && "" !in s.flying
    ensures Stranded(Next(s, ev), id) <==> Stranded(s, id) || Strands(s, ev, id)
  {
    if ev.webhook.id in s.flying {
      RecordedAfter(s.tables, DeliverWebhook(ev.webhook, ev.fault), id);
      if ev.webhook.id == id && !Handle(s.tables, ev.webhook, Some(true), ev.fault).releases {
        EndedMeansRecorded(s.tables, ev.webhook, ev.fault);
      }
    }
  }

  lemma {:induction false} CrashStrands(s: Sys, ev: Event, id: string)
    requires ev.Crashes? && "" !in s.flying
    ensures Stranded(Next(s, ev), id) <==> Stranded(s, id) || Strands(s, ev, id)
  {
    if ev.webhook.id in s.flying {
      RecordedAfter(s.tables, DeliverWebhook(ev.webhook, false), id);
    }
  }

  lemma {:induction false} ArrivalFrees(s: Sys, ev: Event, id: string)
    requires ev.Arrives? && id != ""
    ensures Stranded(Next(s, ev), id) <==> Stranded(s, id) && !Frees(s, ev, id)
  {
  }

  lemma {:induction false} LandingStrands(s: Sys, ev: Event, id: string)
    requires ev.Lands?
    ensures Stranded(Next(s, ev), id) <==> Stranded(s, id) || Strands(s, ev, id)
  {
  }

  lemma {:induction false} OtherFrees(s: Sys, ev: Event, id: string)
    requires ev.Other?
    ensures Stranded(Next(s, ev), id) <==> Stranded(s, id) && !Frees(s, ev, id)
  {
    RecordedAfter(s.tables, ev.op, id);
  }

  lemma {:induction false} NamesStay(s: Sys, ev: Event)
    requires "" !in s.flying
    ensures "" !in Next(s, ev).flying
  {
  }

  /** One event: what strands a delivery, and what ends that. */
  lemma {:induction false} StrandedStep(s: Sys, ev: Event, id: string)
    requires "" !in s.flying && id != ""
    ensures "" !in Next(s, ev).flying
    ensures Stranded(Next(s, ev), id) <==> (Stranded(s, id) && !Frees(s, ev, id)) || Strands(s, ev, id)
  {
    NamesStay(s, ev);
    match ev
    case Arrives(_, _) => ArrivalFrees(s, ev, id);
    case Ends(_, _, _) => EndStrands(s, ev, id);
    case Crashes(_, _) => CrashStrands(s, ev, id);
    case Lands(_) => LandingStrands(s, ev, id);
    case Other(_) => OtherFrees(s, ev, id);
    case _ =>
  }

  const START := Sys(EMPTY, {}, multiset{}, multiset{})

  lemma {:induction false} PlayLast(s: Sys, evs: seq<Event>, ev: Event)
    ensures Play(s, evs + [ev]) == Next(Play(s, evs), ev)
    decreases |evs|
  {
    if evs == [] {
      assert evs + [ev] == [ev] && [ev][1..] == [];
    } else {
      assert (evs + [ev])[1..] == evs[1..] + [ev];
      PlayLast(Next(s, evs[0]), evs[1..], ev);
    }
  }

  /** Event k of the run strands the delivery, and no later event of the run frees it. */
  predicate StrandedSince(evs: seq<Event>, k: nat, id: string) {
    && k < |evs| && Strands(Play(START, evs[..k]), evs[k], id)
    && forall m: nat | k < m < |evs| :: !FreedAt(evs, m, id)
  }

  predicate FreedAt(evs: seq<Event>, m: nat, id: string)
    requires m < |evs|
  {
    Frees(Play(START, evs[..m]), evs[m], id)
  }

  /** With an honest Redis, over any run, a delivery is stranded exactly when some event stranded it for good. */
  lemma {:induction false} StrandedExactly(evs: seq<Event>, id: string)
    requires id != ""
    ensures "" !in Play(START, evs).flying
    ensures Stranded(Play(START, evs), id) <==> exists k: nat :: StrandedSince(evs, k, id)
    decreases |evs|
  {
    if evs != [] {
      var n := |evs| - 1;
      var front, ev := evs[..n], evs[n];
      assert evs == front + [ev];
      PlayLast(START, front, ev);
      StrandedExactly(front, id);
      StrandedStep(Play(START, front), ev, id);
      forall k: nat | k < n ensures evs[..k] == front[..k] {
      }
      if Strands(Play(START, front), ev, id) {
        assert StrandedSince(evs, n, id);
      } else {
        forall k: nat ensures StrandedSince(evs, k, id) <==> StrandedSince(front, k, id) && !FreedAt(evs, n, id) {
          SinceFront(evs, k, id);
        }
      }
    }
  }

  lemma {:induction false} FreedFront(evs: seq<Event>, m: nat, id: string)
    requires m < |evs| - 1
    ensures FreedAt(evs, m, id) == FreedAt(evs[..|evs| - 1], m, id)
  {
    assert evs[..m] == evs[..|evs| - 1][..m];
  }

  lemma {:induction false} SinceFront(evs: seq<Event>, k: nat, id: string)
    requires evs != [] && !Strands(Play(START, evs[..|evs| - 1]), evs[|evs| - 1], id)
    ensures var n := |evs| - 1;
            StrandedSince(evs, k, id) <==> StrandedSince(evs[..n], k, id) && !FreedAt(evs, n, id)
  {
    var n := |evs| - 1;
    if k < n {
      assert evs[..k] == evs[..n][..k];
      if StrandedSince(evs, k, id) {
        StaysInFront(evs, k, id);
      }
      if StrandedSince(evs[..n], k, id) && !FreedAt(evs, n, id) {
        StaysAtEnd(evs, k, id);
      }
    }
  }

  lemma {:induction false} StaysInFront(evs: seq<Event>, k: nat, id: string)
    requires k < |evs| - 1 && StrandedSince(evs, k, id) && evs[..k] == evs[..|evs| - 1][..k]
    ensures StrandedSince(evs[..|evs| - 1], k, id)
  {
    var front := evs[..|evs| - 1];
    forall m: nat | k < m < |front| ensures !FreedAt(front, m, id) {
      FreedFront(evs, m, id);
    }
  }

  lemma {:induction false} StaysAtEnd(evs: seq<Event>, k: nat, id: string)
    requires k < |evs| - 1 && StrandedSince(evs[..|evs| - 1], k, id) && evs[..k] == evs[..|evs| - 1][..k]
    requires !FreedAt(evs, |evs| - 1, id)
    ensures StrandedSince(evs, k, id)
  {
    forall m: nat | k < m < |evs| ensures !FreedAt(evs, m, id) {
      if m < |evs| - 1 {
        FreedFront(evs, m, id);
      }
    }
  }

  lemma {:induction false} FailedEnd(s: Sys, ev: Event)
    requires ev.Ends? && ev.webhook.id != "" && ev.webhook.id in s.flying
    ensures var error := Deliver(s.tables, ev.webhook, ev.fault).error;
            error.Some? && error.value != DuplicateEvent ==>
              && Next(s, ev).tables == s.tables
              && (ev.webhook.id !in Next(s, ev).keys <==> ev.deleted || ev.webhook.id !in s.keys)
  {
  }

  /**
   * With an honest Redis, over any run: a delivery answered as a duplicate concerns an event that is
   * recorded or still being processed, except exactly when it was stranded. A delivery that fails with
   * any other error leaves the tables as they were, and its key free exactly when the DEL takes effect or
   * the key was gone.
   */
  lemma {:induction false} HonestRedisHidesNothing(evs: seq<Event>, ev: Event)
    ensures var s := Play(START, evs);
            TurnedAway(s, ev) && ev.id != "" ==>
              (EventRecorded(s.tables.events, ev.id) || ev.id in s.flying <==>
               !exists k: nat :: StrandedSince(evs, k, ev.id))
    ensures var s := Play(START, evs);
            ev.Ends? && ev.webhook.id in s.flying ==>
              var error := Deliver(s.tables, ev.webhook, ev.fault).error;
              error.Some? && error.value != DuplicateEvent ==>
                && Next(s, ev).tables == s.tables
                && (ev.webhook.id !in Next(s, ev).keys <==> ev.deleted || ev.webhook.id !in s.keys)
  {
    if TurnedAway(Play(START, evs), ev) && ev.id != "" {
      StrandedExactly(evs, ev.id);
    }
    if ev.Ends? && ev.webhook.id in Play(START, evs).flying {
      StrandedExactly(evs, "a");
      FailedEnd(Play(START, evs), ev);
    }
  }

  // ---------------------------------------------------------------- runs that strand a delivery

  lemma {:induction false} PlayTwo(s: Sys, a: Event, b: Event)
    ensures Play(s, [a, b]) == Next(Next(s, a), b)
  {
    PlayLast(s, [a], b);
    PlayLast(s, [], a);
    assert [a] + [b] == [a, b] && [] + [a] == [a];
  }

  /** A crash between SETNX and the commit: the retry is turned away, nothing recorded. */
  lemma {:induction false} CrashStrandsDelivery(e: Webhook)
    requires e.id != ""
    ensures var s := Play(START, [Arrives(e.id, Answers), Crashes(e, false)]);
            TurnedAway(s, Arrives(e.id, Answers)) && Stranded(s, e.id)
  {
    PlayTwo(START, Arrives(e.id, Answers), Crashes(e, false));
  }

  /** A failed delivery whose DEL fails too, as both do when the provider hangs up: the same. */
  lemma {:induction false} FailedDeleteStrandsDelivery(e: Webhook)
    requires e.id != ""
    ensures var s := Play(START, [Arrives(e.id, Answers), Ends(e, true, false)]);
            TurnedAway(s, Arrives(e.id, Answers)) && Stranded(s, e.id)
  {
    PlayTwo(START, Arrives(e.id, Answers), Ends(e, true, false));
  }

  /** A SETNX that was given up on, and takes effect after its delivery has failed and deleted the key: the same. */
  lemma {:induction false} LateKeyStrandsDelivery(e: Webhook)
    requires e.id != ""
    ensures var s := Play(START, [Arrives(e.id, GivenUp), Ends(e, true, true), Lands(e.id)]);
            TurnedAway(s, Arrives(e.id, Answers)) && Stranded(s, e.id)
  {
    var a, b := Arrives(e.id, GivenUp), Ends(e, true, true);
    PlayTwo(START, a, b);
    PlayLast(START, [a, b], Lands(e.id));
    assert [a, b] + [Lands(e.id)] == [a, b, Lands(e.id)];
  }
}
