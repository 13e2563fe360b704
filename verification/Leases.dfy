/**
 * What a lease protects and for how long, what each closing write leaves behind, and what every reachable
 * job row and asset looks like.
 */
module Leases {
  import opened Results
  import opened MediaTables
  import opened Fencing
  import opened Sums

  // ---------------------------------------------------------------- one statement

  /** The row is held by worker `w` until time `until`. */
  predicate HeldUntil(j: Job, w: nat, until: int) {
    j.status == Running && j.worker == Some(w) && j.lease == Some(until)
  }

  /** A heartbeat of the row's worker moves the end of the lease, and nothing else, to `ttl` from now. */
  lemma {:induction false} HeartbeatLeases(m: Media, j: nat, w: nat, now: int, ttl: int, t: int)
    requires j < |m.jobs| && m.jobs[j].worker == Some(w) && m.jobs[j].status == Running
    ensures var m' := MediaTables.Heartbeat(m, j, w, now, ttl);
            && m' == m.(jobs := m.jobs[j := m.jobs[j].(lease := m'.jobs[j].lease)])
            && HeldUntil(m'.jobs[j], w, now + ttl)
            && (Claimable(m'.jobs[j], t) <==> now + ttl < t)
  {
  }

  /** A heartbeat of anyone else, or for a row that is not running, changes nothing. */
  lemma {:induction false} OtherHeartbeats(m: Media, j: nat, w: nat, now: int, ttl: int)
    requires j < |m.jobs| ==> m.jobs[j].worker != Some(w) || m.jobs[j].status != Running
    ensures MediaTables.Heartbeat(m, j, w, now, ttl) == m
  {
  }

  /** A claim gives the row to the worker as its next attempt, for `ttl` from now. */
  lemma {:induction false} ClaimLeases(m: Media, j: nat, w: nat, now: int, ttl: int, t: int)
    requires j < |m.jobs|
    requires || m.jobs[j].status == Queued
             || (m.jobs[j].status == Running && m.jobs[j].lease.Some? && m.jobs[j].lease.value < now)
    ensures var m' := MediaTables.Claim(m, j, w, now, ttl);
            && m' == m.(jobs := m.jobs[j := m'.jobs[j]])
            && m'.jobs[j].asset == m.jobs[j].asset && m'.jobs[j].version == m.jobs[j].version
            && m'.jobs[j].attempt == m.jobs[j].attempt + 1
            && HeldUntil(m'.jobs[j], w, now + ttl)
            && (Claimable(m'.jobs[j], t) <==> now + ttl < t)
  {
  }

  /** A completed upload makes the asset UPLOADED, tells it, and leaves its key; a new asset waits for its upload. */
  lemma {:induction false} UploadWrites(m: Media, a: nat)
    ensures var m' := MarkUploaded(m, a);
            && m'.jobs == m.jobs && |m'.assets| == |m.assets|
            && (forall b: nat | b < |m.assets| && b != a :: m'.assets[b] == m.assets[b])
            && if a < |m.assets| then
                 && m'.assets[a].status == Uploaded && m'.assets[a].masterKey == m.assets[a].masterKey
                 && m'.outbox == m.outbox + [MediaUploaded(a)]
               else m'.outbox == m.outbox
    ensures var m' := MediaTables.AddAsset(m);
            && |m'.assets| == |m.assets| + 1 && m'.assets[..|m.assets|] == m.assets
            && m'.assets[|m.assets|].status == PendingUpload && m'.assets[|m.assets|].masterKey.None?
            && m'.jobs == m.jobs && m'.outbox == m.outbox
  {
  }

  // ---------------------------------------------------------------- the shape of a job row

  /** A queued row has neither worker nor lease, a running one has both, a finished one keeps its worker only. */
  predicate Shaped(j: Job) {
    match j.status
    case Queued => j.worker.None? && j.lease.None?
    case Running => j.worker.Some? && j.lease.Some?
    case _ => j.worker.Some? && j.lease.None?
  }

  ghost predicate AllShaped(jobs: seq<Job>) {
    forall j: nat | j < |jobs| :: Shaped(jobs[j])
  }

  lemma {:induction false} NextKeepsShape(c: Cluster, max: int, s: Step)
    requires TokensMatch(c) && AllShaped(c.m.jobs)
    ensures AllShaped(Next(c, max, s).m.jobs)
  {
  }

  lemma {:induction false} RunKeepsShape(c: Cluster, max: int, steps: seq<Step>)
    requires TokensMatch(c) && AllShaped(c.m.jobs)
    ensures AllShaped(Run(c, max, steps).m.jobs)
    decreases |steps|
  {
    if steps != [] {
      NextKeepsTokens(c, max, steps[0]);
      NextKeepsShape(c, max, steps[0]);
      RunKeepsShape(Next(c, max, steps[0]), max, steps[1..]);
    }
  }

  lemma {:induction false} FreeByShape(j: Job, t: int)
    requires Shaped(j)
    ensures Claimable(j, t) <==> match j.status
                                 case Queued => true
                                 case Running => j.lease.value < t
                                 case _ => false
  {
  }

  lemma {:induction false} ReachedShape(max: int, steps: seq<Step>)
    ensures AllShaped(Run(START, max, steps).m.jobs)
  {
    StartIsFine();
    RunKeepsShape(START, max, steps);
  }

  /**
   * In every reachable state a queued job is free at any time, a running one exactly once its lease is past,
   * and a finished one never.
   */
  lemma {:induction false} FreeExactly(max: int, steps: seq<Step>, j: nat, t: int)
    requires j < |Run(START, max, steps).m.jobs|
    ensures Shaped(Run(START, max, steps).m.jobs[j])
    ensures var x := Run(START, max, steps).m.jobs[j];
            Claimable(x, t) <==> match x.status
                                 case Queued => true
                                 case Running => x.lease.value < t
                                 case _ => false
  {
    ReachedShape(max, steps);
    FreeByShape(Run(START, max, steps).m.jobs[j], t);
  }

  // ---------------------------------------------------------------- a live worker keeps its job

  /** Job `j` is worker `w`'s, in this attempt, on a lease that ends no earlier than `until`. */
  ghost predicate Keeps(c: Cluster, j: nat, w: nat, attempt: nat, until: int) {
    && j < |c.m.jobs|
    && c.m.jobs[j].status == Running && c.m.jobs[j].worker == Some(w) && c.m.jobs[j].attempt == attempt
    && c.m.jobs[j].lease.Some? && c.m.jobs[j].lease.value >= until
  }

  /**
   * A step up to time `until` that worker `w` does not end its job by: others may do anything, and `w` may
   * beat, on a lease that reaches as far.
   */
  predicate Within(s: Step, w: nat, until: int) {
    && (s.Claim? ==> s.now <= until)
    && (s.Beat? && s.w == w ==> s.now + s.ttl >= until)
    && ((s.CallSucceed? || s.Close?) ==> s.w != w)
  }

  lemma {:induction false} StepWithinKeeps(c: Cluster, max: int, s: Step, j: nat, w: nat, attempt: nat, until: int)
    requires Keeps(c, j, w, attempt, until) && Within(s, w, until)
    ensures Keeps(Next(c, max, s), j, w, attempt, until)
  {
  }

  lemma {:induction false} RunWithinKeeps(c: Cluster, max: int, steps: seq<Step>, j: nat, w: nat, attempt: nat, until: int)
    requires Keeps(c, j, w, attempt, until) && forall s | s in steps :: Within(s, w, until)
    ensures Keeps(Run(c, max, steps), j, w, attempt, until)
    decreases |steps|
  {
    if steps != [] {
      StepWithinKeeps(c, max, steps[0], j, w, attempt, until);
      RunWithinKeeps(Next(c, max, steps[0]), max, steps[1..], j, w, attempt, until);
    }
  }

  /** From a claim until its lease ends, no step of another worker changes the job's worker, attempt or status. */
  lemma {:induction false} ClaimProtects(c: Cluster, max: int, w: nat, j: nat, now: int, ttl: int, steps: seq<Step>)
    requires w < |c.workers| && c.workers[w].Idle? && j < |c.m.jobs| && Claimable(c.m.jobs[j], now)
    requires forall s | s in steps :: Within(s, w, now + ttl)
    ensures var c1 := Next(c, max, Step.Claim(w, j, now, ttl));
            Keeps(Run(c1, max, steps), j, w, c.m.jobs[j].attempt + 1, now + ttl)
  {
    RunWithinKeeps(Next(c, max, Step.Claim(w, j, now, ttl)), max, steps, j, w, c.m.jobs[j].attempt + 1, now + ttl);
  }

  /** The same from each heartbeat that finds the worker's row. */
  lemma {:induction false} BeatProtects(c: Cluster, max: int, w: nat, now: int, ttl: int, steps: seq<Step>)
    requires Busy(c, w) && !c.workers[w].stolen && c.workers[w].job < |c.m.jobs|
    requires c.m.jobs[c.workers[w].job].worker == Some(w) && c.m.jobs[c.workers[w].job].status == Running
    requires forall s | s in steps :: Within(s, w, now + ttl)
    ensures var c1 := Next(c, max, Beat(w, now, ttl, true));
            Keeps(Run(c1, max, steps), c.workers[w].job, w, c.m.jobs[c.workers[w].job].attempt, now + ttl)
  {
    var j := c.workers[w].job;
    RunWithinKeeps(Next(c, max, Beat(w, now, ttl, true)), max, steps, j, w, c.m.jobs[j].attempt, now + ttl);
  }

  /** And no longer: an idle worker's claim takes a running job exactly when the lease has run out. */
  lemma {:induction false} LeaseRunsOut(c: Cluster, max: int, j: nat, w: nat, until: int, w': nat, now: int, ttl: int)
    requires j < |c.m.jobs| && HeldUntil(c.m.jobs[j], w, until) && w' < |c.workers| && c.workers[w'].Idle?
    ensures var c1 := Next(c, max, Step.Claim(w', j, now, ttl));
            && (until < now ==> HeldUntil(c1.m.jobs[j], w', now + ttl) && c1.m.jobs[j].attempt == c.m.jobs[j].attempt + 1)
            && (now <= until ==> c1 == c)
  {
  }

  // ---------------------------------------------------------------- what closing a job writes

  /** The asset keeps everything but its status. */
  predicate OnlyStatus(a: Asset, a': Asset, s: AssetStatus) {
    a'.status == s && a'.masterKey == a.masterKey
  }

  /** A success that finds the worker's row: job over, asset READY with the call's master, one event with it. */
  lemma {:induction false} SuccessWrites(c: Cluster, max: int, w: nat, master: string)
    requires TokensMatch(c) && OneOutcome(c.m) && w < |c.workers| && c.workers[w].Encoding? && Holds(c, w)
    ensures var j := c.workers[w].job;
            var a, m' := c.m.jobs[j].asset, Next(c, max, CallSucceed(w, master, true)).m;
            && m'.jobs == c.m.jobs[j := m'.jobs[j]]
            && m'.jobs[j].status == Succeeded && m'.jobs[j].attempt == c.m.jobs[j].attempt
            && m'.assets == c.m.assets[a := m'.assets[a]]
            && m'.assets[a].status == Ready && m'.assets[a].masterKey == Some(master)
            && m'.outbox == c.m.outbox + [TranscodeCompleted(a, master)]
  {
  }

  /**
   * What the one closing write of a worker that holds its job comes to: rejected for good; else back in the
   * queue exactly when attempts are left and no shutdown is under way; else failed for good.
   */
  lemma {:induction false} CloseDecides(c: Cluster, max: int, w: nat, shutdown: bool)
    requires TokensMatch(c) && OneOutcome(c.m) && w < |c.workers| && c.workers[w].Returned? && !c.workers[w].stolen
    requires Holds(c, w)
    ensures var x := c.workers[w];
            var a, m' := c.m.jobs[x.job].asset, Next(c, max, Close(w, true, shutdown)).m;
            && m'.jobs == c.m.jobs[x.job := m'.jobs[x.job]] && m'.jobs[x.job].attempt == x.attempt
            && if x.rejects then
                 && m'.jobs[x.job].status == Cancelled && m'.outbox == c.m.outbox + [TranscodeRejected(a)]
                 && m'.assets == c.m.assets[a := m'.assets[a]] && OnlyStatus(c.m.assets[a], m'.assets[a], Rejected)
               else if x.attempt < max && !shutdown then
                 m'.jobs[x.job].status == Queued && m'.outbox == c.m.outbox && m'.assets == c.m.assets
               else
                 && m'.jobs[x.job].status == JobFailed && m'.outbox == c.m.outbox + [TranscodeFailed(a)]
                 && m'.assets == c.m.assets[a := m'.assets[a]] && OnlyStatus(c.m.assets[a], m'.assets[a], AssetFailed)
  {
  }

  /** A worker that has reported, lost its job, saw the loss, or cannot reach the database closes without writing. */
  lemma {:induction false} CloseWithoutJob(c: Cluster, max: int, w: nat, dbOk: bool, shutdown: bool)
    requires TokensMatch(c) && Busy(c, w)
    requires !c.workers[w].Returned? || c.workers[w].stolen || !dbOk || !Holds(c, w)
    ensures Next(c, max, Close(w, dbOk, shutdown)).m == c.m
  {
  }

  /** The worker has seen that its job is not its own any more. */
  predicate SawLoss(c: Cluster, w: nat) {
    Busy(c, w) && c.workers[w].stolen
  }

  /** A beat shows the loss exactly when it reaches the database and finds no running row of the worker's. */
  lemma {:induction false} BeatTells(c: Cluster, max: int, w: nat, now: int, ttl: int, dbOk: bool)
    requires Busy(c, w) && !c.workers[w].stolen
    ensures var x, c1 := c.workers[w], Next(c, max, Beat(w, now, ttl, dbOk));
            && (SawLoss(c1, w) <==> dbOk && !(&& x.job < |c.m.jobs| && c.m.jobs[x.job].worker == Some(w)
                                              && c.m.jobs[x.job].status == Running))
            && (SawLoss(c1, w) ==> c1.m == c.m)
  {
  }

  // ---------------------------------------------------------------- an asset's master key

  /** An asset has a master key exactly when its completed event was written, and it is the event's. */
  ghost predicate KeysAgree(m: Media) {
    && (forall a: nat, k :: TranscodeCompleted(a, k) in m.outbox <==> a < |m.assets| && m.assets[a].masterKey == Some(k))
    && (forall a: nat | a < |m.assets| && m.assets[a].status == Ready :: m.assets[a].masterKey.Some?)
  }

  lemma {:induction false} CompletedOnce(outbox: seq<MediaEvent>, a: nat, k: string)
    requires TranscodeCompleted(a, k) in outbox
    ensures Sum(outbox, CompletedFor(a)) >= 1
  {
    var i :| 0 <= i < |outbox| && outbox[i] == TranscodeCompleted(a, k);
    SumAtLeast(outbox, i, CompletedFor(a));
  }

  /** Before its success no completed event of the job's asset is in the outbox, so the asset has no key yet. */
  lemma {:induction false} NoKeyYet(c: Cluster, j: nat)
    requires OneOutcome(c.m) && KeysAgree(c.m) && j < |c.m.jobs| && c.m.jobs[j].status == Running
    ensures c.m.assets[c.m.jobs[j].asset].masterKey.None?
    ensures forall k :: TranscodeCompleted(c.m.jobs[j].asset, k) !in c.m.outbox
  {
    OutcomeOfJob(c.m, j);
    forall k ensures TranscodeCompleted(c.m.jobs[j].asset, k) !in c.m.outbox {
      if TranscodeCompleted(c.m.jobs[j].asset, k) in c.m.outbox {
        CompletedOnce(c.m.outbox, c.m.jobs[j].asset, k);
      }
    }
  }

  lemma {:induction false} SuccessKeepsKeys(c: Cluster, max: int, w: nat, master: string)
    requires TokensMatch(c) && OneOutcome(c.m) && KeysAgree(c.m)
    requires w < |c.workers| && c.workers[w].Encoding? && Holds(c, w)
    ensures KeysAgree(Next(c, max, CallSucceed(w, master, true)).m)
  {
    NoKeyYet(c, c.workers[w].job);
    SuccessWrites(c, max, w, master);
  }

  lemma {:induction false} CloseKeepsKeys(c: Cluster, max: int, w: nat, dbOk: bool, shutdown: bool)
    requires TokensMatch(c) && OneOutcome(c.m) && KeysAgree(c.m)
    ensures KeysAgree(Next(c, max, Close(w, dbOk, shutdown)).m)
  {
    if Busy(c, w) {
      if c.workers[w].Returned? && !c.workers[w].stolen && dbOk && Holds(c, w) {
        CloseDecides(c, max, w, shutdown);
      } else {
        CloseWithoutJob(c, max, w, dbOk, shutdown);
      }
    }
  }

  lemma {:induction false} NextKeepsKeys(c: Cluster, max: int, s: Step)
    requires TokensMatch(c) && OneOutcome(c.m) && KeysAgree(c.m)
    ensures KeysAgree(Next(c, max, s).m)
  {
    match s
    case CallSucceed(w, master, dbOk) =>
      if Next(c, max, s).m != c.m {
        SuccessKeepsKeys(c, max, w, master);
      }
    case Close(w, dbOk, shutdown) => CloseKeepsKeys(c, max, w, dbOk, shutdown);
    case _ =>
  }

  lemma {:induction false} RunKeepsKeys(c: Cluster, max: int, steps: seq<Step>)
    requires TokensMatch(c) && OneOutcome(c.m) && KeysAgree(c.m)
    ensures KeysAgree(Run(c, max, steps).m)
    decreases |steps|
  {
    if steps != [] {
      NextKeepsTokens(c, max, steps[0]);
      NextKeepsOutcome(c, max, steps[0]);
      NextKeepsKeys(c, max, steps[0]);
      RunKeepsKeys(Next(c, max, steps[0]), max, steps[1..]);
    }
  }

  /** Over any run a READY asset carries the master key its one completed event announces. */
  lemma {:induction false} ReadyCarriesItsMaster(max: int, steps: seq<Step>, a: nat)
    requires a < |Run(START, max, steps).m.assets|
    ensures var m := Run(START, max, steps).m;
            && (m.assets[a].status == Ready ==> m.assets[a].masterKey.Some?)
            && forall k :: m.assets[a].masterKey == Some(k) <==> TranscodeCompleted(a, k) in m.outbox
  {
    StartIsFine();
    RunKeepsKeys(START, max, steps);
  }
}
